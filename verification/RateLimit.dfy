/** The per-client token bucket, with eviction of idle clients. Time is in seconds, with one
    clock reading per request. */
module RateLimit {
  datatype Config = Config(rate: real, burst: int)

  datatype Client = Client(tokens: real, lastSeen: real)

  type Clients = map<string, Client>

  const IDLE := 60.0

  function Clamp(cfg: Config, x: real): real { if x > cfg.burst as real then cfg.burst as real else x }

  function Refilled(cfg: Config, c: Client, now: real): real { Clamp(cfg, c.tokens + (now - c.lastSeen) * cfg.rate) }

  /** A new client is let in without a check and starts one token down. */
  function Decide(cfg: Config, m: Clients, id: string, now: real): (Clients, bool) {
    if id !in m then (m[id := Client(cfg.burst as real - 1.0, now)], true)
    else
      var t := Refilled(cfg, m[id], now);
      if t < 1.0 then (m[id := Client(t, now)], false) else (m[id := Client(t - 1.0, now)], true)
  }

  function Evicted(m: Clients, now: real): Clients {
    map id | id in m && now - m[id].lastSeen <= IDLE :: m[id]
  }

  class Limiter {
    const config: Config
    var clients: Clients

    constructor (cfg: Config)
      ensures config == cfg && clients == map[]
    {
      config, clients := cfg, map[];
    }

    method Allow(clientID: string, now: real) returns (ok: bool)
      modifies this
      ensures (clients, ok) == Decide(config, old(clients), clientID, now)
    {
      if clientID !in clients {
        clients := clients[clientID := Client(config.burst as real - 1.0, now)];
        return true;
      }
      var c := clients[clientID];
      var elapsed := now - c.lastSeen;
      c := c.(tokens := c.tokens + elapsed * config.rate);
      if c.tokens > config.burst as real {
        c := c.(tokens := config.burst as real);
      }
      c := c.(lastSeen := now);
      assert c.tokens == Refilled(config, clients[clientID], now);
      if c.tokens < 1.0 {
        clients := clients[clientID := c];
        return false;
      }
      clients := clients[clientID := c.(tokens := c.tokens - 1.0)];
      return true;
    }

    /** One tick of the cleanup loop. */
    method Cleanup(now: real)
      modifies this
      ensures clients == Evicted(old(clients), now)
    {
      var rest := clients.Keys;
      while rest != {}
        invariant rest <= old(clients).Keys
        invariant clients == map id | id in old(clients) && (id in rest || now - old(clients)[id].lastSeen <= IDLE)
                                    :: old(clients)[id]
        decreases rest
      {
        var id :| id in rest;
        rest := rest - {id};
        if now - clients[id].lastSeen > IDLE {
          clients := clients - {id};
        }
      }
    }
  }

  /* ---------- Traces ---------- */

  datatype Event = Request(id: string, at: real) | Tick(at: real)

  ghost predicate Timed(evs: seq<Event>) { forall i, j :: 0 <= i < j < |evs| ==> evs[i].at <= evs[j].at }

  ghost predicate TimedUpTo(evs: seq<Event>, now: real) {
    Timed(evs) && forall i :: 0 <= i < |evs| ==> evs[i].at <= now
  }

  function Handle(cfg: Config, evict: bool, m: Clients, e: Event): Clients {
    match e
    case Request(id, at) => Decide(cfg, m, id, at).0
    case Tick(at) => if evict then Evicted(m, at) else m
  }

  /** The limiter's clients after a trace, with or without eviction. */
  function Serve(cfg: Config, evict: bool, evs: seq<Event>): Clients {
    if evs == [] then map[] else Handle(cfg, evict, Serve(cfg, evict, evs[..|evs| - 1]), evs[|evs| - 1])
  }

  predicate Allowed(cfg: Config, m: Clients, e: Event) { e.Request? && Decide(cfg, m, e.id, e.at).1 }

  lemma ServeSnoc(cfg: Config, evict: bool, evs: seq<Event>, e: Event)
    ensures Serve(cfg, evict, evs + [e]) == Handle(cfg, evict, Serve(cfg, evict, evs), e)
  {
    assert (evs + [e])[..|evs|] == evs;
  }

  /** The decision on event k. */
  predicate Decision(cfg: Config, evict: bool, evs: seq<Event>, k: nat)
    requires k < |evs|
  {
    Allowed(cfg, Serve(cfg, evict, evs[..k]), evs[k])
  }

  /* ---------- What a client can observe: its level ---------- */

  /** Tokens a client would find at a time; a client not on record has a full bucket. */
  function Level(cfg: Config, m: Clients, id: string, now: real): real {
    if id in m then Refilled(cfg, m[id], now) else cfg.burst as real
  }

  ghost predicate Sound(cfg: Config, m: Clients, now: real) {
    forall id :: id in m ==> 0.0 <= m[id].tokens <= cfg.burst as real && m[id].lastSeen <= now
  }

  /** Two limiters no request from now on can tell apart. */
  ghost predicate Same(cfg: Config, m: Clients, m': Clients, now: real) {
    forall id, t :: t >= now ==> Level(cfg, m, id, t) == Level(cfg, m', id, t)
  }

  lemma GainAdds(cfg: Config, a: real, b: real, c: real)
    ensures (b - a) * cfg.rate + (c - b) * cfg.rate == (c - a) * cfg.rate
  {
  }

  lemma GainNonNegative(cfg: Config, a: real, b: real)
    requires a <= b && cfg.rate >= 0.0
    ensures (b - a) * cfg.rate >= 0.0
  {
  }

  /** Refills compose under the clamp. */
  lemma RefillsCompose(cfg: Config, c: Client, t: real, u: real)
    requires c.lastSeen <= t <= u && cfg.rate >= 0.0
    ensures Refilled(cfg, Client(Refilled(cfg, c, t), t), u) == Refilled(cfg, c, u)
  {
    GainAdds(cfg, c.lastSeen, t, u);
    GainNonNegative(cfg, t, u);
  }

  lemma RefillBounds(cfg: Config, c: Client, t: real)
    requires cfg.burst >= 1 && cfg.rate >= 0.0 && c.tokens >= 0.0 && c.lastSeen <= t
    ensures 0.0 <= Refilled(cfg, c, t) <= cfg.burst as real
  {
    GainNonNegative(cfg, c.lastSeen, t);
    assert cfg.burst as real >= 1.0;
    assert c.tokens + (t - c.lastSeen) * cfg.rate >= 0.0;
  }

  /** Only the level decides, and a request moves the client's level at once by what it got. */
  lemma RequestNow(cfg: Config, m: Clients, id: string, at: real)
    requires cfg.burst >= 1 && cfg.rate >= 0.0 && Sound(cfg, m, at)
    ensures var (m', ok) := Decide(cfg, m, id, at);
            && ok == (Level(cfg, m, id, at) >= 1.0)
            && id in m' && m'[id].lastSeen == at
            && m'[id].tokens == Level(cfg, m', id, at) == Level(cfg, m, id, at) - (if ok then 1.0 else 0.0)
            && Sound(cfg, m', at)
  {
    if id in m { RefillBounds(cfg, m[id], at); }
    NoGain(cfg, Decide(cfg, m, id, at).0[id], at);
  }

  lemma NoGain(cfg: Config, c: Client, at: real)
    ensures c.lastSeen == at && c.tokens <= cfg.burst as real ==> Refilled(cfg, c, at) == c.tokens
  {
    if c.lastSeen == at { assert (at - c.lastSeen) * cfg.rate == 0.0; }
  }

  /** A decision moves only the requesting client's level, now and later: down by one when
      allowed, not at all when denied. */
  lemma RequestEffect(cfg: Config, m: Clients, id: string, at: real, id': string, u: real)
    requires cfg.burst >= 1 && cfg.rate >= 0.0 && Sound(cfg, m, at) && u >= at
    ensures var (m', ok) := Decide(cfg, m, id, at);
            Level(cfg, m', id', u) ==
              if id' == id && ok then Clamp(cfg, Level(cfg, m, id, at) - 1.0 + (u - at) * cfg.rate)
              else Level(cfg, m, id', u)
  {
    if id in m && id' == id {
      RefillsCompose(cfg, m[id], at, u);
    }
  }

  /** No eviction, or an idle minute refills the bucket. */
  predicate Harmless(cfg: Config, evict: bool) { evict ==> IDLE * cfg.rate >= cfg.burst as real }

  lemma EvictionEffect(cfg: Config, m: Clients, at: real, id: string, u: real)
    requires cfg.rate >= 0.0 && IDLE * cfg.rate >= cfg.burst as real && Sound(cfg, m, at) && u >= at
    ensures Level(cfg, Evicted(m, at), id, u) == Level(cfg, m, id, u)
  {
    if id in m && id !in Evicted(m, at) {
      GainAdds(cfg, m[id].lastSeen, m[id].lastSeen + IDLE, u);
      GainNonNegative(cfg, m[id].lastSeen + IDLE, u);
    }
  }

  function Last(evs: seq<Event>): real { if evs == [] then 0.0 else evs[|evs| - 1].at }

  lemma {:induction false} AlwaysSound(cfg: Config, evict: bool, evs: seq<Event>, now: real)
    requires cfg.burst >= 1 && cfg.rate >= 0.0 && TimedUpTo(evs, now)
    ensures Sound(cfg, Serve(cfg, evict, evs), now)
  {
    if evs != [] {
      var e := evs[|evs| - 1];
      AlwaysSound(cfg, evict, evs[..|evs| - 1], e.at);
      if e.Request? { RequestNow(cfg, Serve(cfg, evict, evs[..|evs| - 1]), e.id, e.at); }
    }
  }

  /** Tokens stay within 0..burst, for every trace with cleanup anywhere. */
  lemma TokensBounded(cfg: Config, evict: bool, evs: seq<Event>, id: string)
    requires cfg.burst >= 1 && cfg.rate >= 0.0 && Timed(evs)
    ensures id in Serve(cfg, evict, evs) ==> 0.0 <= Serve(cfg, evict, evs)[id].tokens <= cfg.burst as real
  {
    AlwaysSound(cfg, evict, evs, Last(evs));
  }

  /* ---------- Eviction and denial cannot be observed ---------- */

  lemma RequestSame(cfg: Config, m: Clients, m': Clients, id: string, at: real)
    requires cfg.burst >= 1 && cfg.rate >= 0.0 && Sound(cfg, m, at) && Sound(cfg, m', at) && Same(cfg, m, m', at)
    ensures Decide(cfg, m, id, at).1 == Decide(cfg, m', id, at).1
    ensures Same(cfg, Decide(cfg, m, id, at).0, Decide(cfg, m', id, at).0, at)
  {
    RequestNow(cfg, m, id, at);
    RequestNow(cfg, m', id, at);
    assert Level(cfg, m, id, at) == Level(cfg, m', id, at);
    forall x, u | u >= at
      ensures Level(cfg, Decide(cfg, m, id, at).0, x, u) == Level(cfg, Decide(cfg, m', id, at).0, x, u)
    {
      RequestEffect(cfg, m, id, at, x, u);
      RequestEffect(cfg, m', id, at, x, u);
      assert Level(cfg, m, x, u) == Level(cfg, m', x, u);
    }
  }

  lemma TickSame(cfg: Config, evict: bool, m: Clients, at: real)
    requires cfg.rate >= 0.0 && Harmless(cfg, evict) && Sound(cfg, m, at)
    ensures Same(cfg, Handle(cfg, evict, m, Tick(at)), m, at)
  {
    if evict {
      forall id, u | u >= at ensures Level(cfg, Evicted(m, at), id, u) == Level(cfg, m, id, u) {
        EvictionEffect(cfg, m, at, id, u);
      }
    }
  }

  lemma SameStep(cfg: Config, ev: bool, ev': bool, m: Clients, m': Clients, e: Event)
    requires cfg.burst >= 1 && cfg.rate >= 0.0 && Harmless(cfg, ev) && Harmless(cfg, ev')
    requires Sound(cfg, m, e.at) && Sound(cfg, m', e.at) && Same(cfg, m, m', e.at)
    ensures Allowed(cfg, m, e) == Allowed(cfg, m', e)
    ensures Same(cfg, Handle(cfg, ev, m, e), Handle(cfg, ev', m', e), e.at)
  {
    match e
    case Request(id, at) => RequestSame(cfg, m, m', id, at);
    case Tick(at) => TickSame(cfg, ev, m, at); TickSame(cfg, ev', m', at);
  }

  lemma {:induction false} SameWithoutEviction(cfg: Config, evs: seq<Event>, now: real)
    requires cfg.burst >= 1 && cfg.rate >= 0.0 && IDLE * cfg.rate >= cfg.burst as real
    requires TimedUpTo(evs, now)
    ensures Same(cfg, Serve(cfg, true, evs), Serve(cfg, false, evs), now)
  {
    if evs != [] {
      var front, e := evs[..|evs| - 1], evs[|evs| - 1];
      SameWithoutEviction(cfg, front, e.at);
      AlwaysSound(cfg, true, front, e.at);
      AlwaysSound(cfg, false, front, e.at);
      SameStep(cfg, true, false, Serve(cfg, true, front), Serve(cfg, false, front), e);
    }
  }

  ghost predicate EvictionUnobservable(cfg: Config) {
    forall evs: seq<Event>, k: nat ::
      Timed(evs) && k < |evs| ==> Decision(cfg, true, evs, k) == Decision(cfg, false, evs, k)
  }

  lemma UnobservableWhenIdleRefills(cfg: Config)
    requires cfg.burst >= 1 && cfg.rate >= 0.0 && IDLE * cfg.rate >= cfg.burst as real
    ensures EvictionUnobservable(cfg)
  {
    forall evs: seq<Event>, k: nat | Timed(evs) && k < |evs|
      ensures Decision(cfg, true, evs, k) == Decision(cfg, false, evs, k)
    {
      var front, e := evs[..k], evs[k];
      SameWithoutEviction(cfg, front, e.at);
      AlwaysSound(cfg, true, front, e.at);
      AlwaysSound(cfg, false, front, e.at);
      SameStep(cfg, true, false, Serve(cfg, true, front), Serve(cfg, false, front), e);
    }
  }

  /** n requests of one client at one moment. */
  function Burst(id: string, at: real, n: nat): seq<Event> { seq(n, _ => Request(id, at)) }

  /** After n requests at one moment: one token down per request until none is left. */
  ghost predicate Draining(cfg: Config, start: real, m: Clients, id: string, at: real, n: nat) {
    var now := Level(cfg, m, id, at);
    && Sound(cfg, m, at)
    && (now == start - n as real || (now < 1.0 && start < n as real))
    && (n >= 1 ==> id in m && m[id] == Client(now, at))
  }

  lemma DrainStep(cfg: Config, start: real, m: Clients, id: string, at: real, n: nat)
    requires cfg.burst >= 1 && cfg.rate >= 0.0 && Draining(cfg, start, m, id, at, n)
    ensures Draining(cfg, start, Decide(cfg, m, id, at).0, id, at, n + 1)
  {
    RequestNow(cfg, m, id, at);
  }

  lemma BurstSnoc(pre: seq<Event>, id: string, at: real, n: nat)
    ensures pre + Burst(id, at, n + 1) == pre + Burst(id, at, n) + [Request(id, at)]
    ensures pre + Burst(id, at, 0) == pre
  {
  }

  lemma DrainSnoc(cfg: Config, evict: bool, start: real, evs: seq<Event>, id: string, at: real, n: nat)
    requires cfg.burst >= 1 && cfg.rate >= 0.0 && Draining(cfg, start, Serve(cfg, evict, evs), id, at, n)
    ensures Draining(cfg, start, Serve(cfg, evict, evs + [Request(id, at)]), id, at, n + 1)
  {
    ServeSnoc(cfg, evict, evs, Request(id, at));
    DrainStep(cfg, start, Serve(cfg, evict, evs), id, at, n);
  }

  lemma {:induction false} DrainAll(cfg: Config, evict: bool, start: real, pre: seq<Event>, id: string, at: real,
                                    n: nat)
    requires cfg.burst >= 1 && cfg.rate >= 0.0 && Draining(cfg, start, Serve(cfg, evict, pre), id, at, 0)
    ensures Draining(cfg, start, Serve(cfg, evict, pre + Burst(id, at, n)), id, at, n)
  {
    if n == 0 {
      BurstSnoc(pre, id, at, 0);
    } else {
      DrainAll(cfg, evict, start, pre, id, at, n - 1);
      BurstSnoc(pre, id, at, n - 1);
      DrainSnoc(cfg, evict, start, pre + Burst(id, at, n - 1), id, at, n - 1);
    }
  }

  lemma BurstDrains(cfg: Config, evict: bool, pre: seq<Event>, id: string, at: real, n: nat)
    requires cfg.burst >= 1 && cfg.rate >= 0.0 && Sound(cfg, Serve(cfg, evict, pre), at)
    ensures var start := Level(cfg, Serve(cfg, evict, pre), id, at);
            Draining(cfg, start, Serve(cfg, evict, pre + Burst(id, at, n)), id, at, n)
  {
    DrainAll(cfg, evict, Level(cfg, Serve(cfg, evict, pre), id, at), pre, id, at, n);
  }

  /** A moment after the idle limit at which an empty bucket has not refilled. */
  lemma LateButNotFull(cfg: Config) returns (t: real)
    requires cfg.burst >= 1 && cfg.rate >= 0.0 && IDLE * cfg.rate < cfg.burst as real
    ensures t > IDLE && t * cfg.rate < cfg.burst as real
  {
    var b, r := cfg.burst as real, cfg.rate;
    if r == 0.0 {
      t := 61.0;
    } else {
      var full := b / r;
      assert full * r == b;
      assert full > 60.0 by { if full <= 60.0 { GainNonNegative(cfg, full, 60.0); } }
      t := (60.0 + full) / 2.0;
      assert t * r == (60.0 * r + full * r) / 2.0;
    }
  }

  function Drain(cfg: Config): seq<Event>
    requires cfg.burst >= 1
  {
    Burst("c", 0.0, cfg.burst)
  }

  lemma Drained(cfg: Config, evict: bool)
    requires cfg.burst >= 1 && cfg.rate >= 0.0
    ensures var m := Serve(cfg, evict, Drain(cfg)); "c" in m && m["c"] == Client(0.0, 0.0)
  {
    assert [] + Drain(cfg) == Drain(cfg);
    BurstDrains(cfg, evict, [], "c", 0.0, cfg.burst);
  }

  lemma EmptyAtTick(cfg: Config, m: Clients, t: real)
    requires "c" in m && m["c"] == Client(0.0, 0.0)
    requires t > IDLE && t * cfg.rate < cfg.burst as real
    ensures Level(cfg, Evicted(m, t), "c", t) == cfg.burst as real && Level(cfg, m, "c", t) < cfg.burst as real
  {
    assert (t - 0.0) * cfg.rate == t * cfg.rate;
  }

  lemma AfterTick(cfg: Config, t: real)
    requires cfg.burst >= 1 && cfg.rate >= 0.0 && t > IDLE && t * cfg.rate < cfg.burst as real
    ensures Level(cfg, Serve(cfg, true, Drain(cfg) + [Tick(t)]), "c", t) == cfg.burst as real
    ensures Level(cfg, Serve(cfg, false, Drain(cfg) + [Tick(t)]), "c", t) < cfg.burst as real
  {
    ServeSnoc(cfg, true, Drain(cfg), Tick(t));
    ServeSnoc(cfg, false, Drain(cfg), Tick(t));
    Drained(cfg, true);
    Drained(cfg, false);
    EmptyAtTick(cfg, Serve(cfg, true, Drain(cfg)), t);
    EmptyAtTick(cfg, Serve(cfg, false, Drain(cfg)), t);
  }

  lemma TickTimed(evs: seq<Event>, t: real)
    requires TimedUpTo(evs, t)
    ensures TimedUpTo(evs + [Tick(t)], t)
  {
  }

  lemma BurstTimed(pre: seq<Event>, t: real, n: nat)
    requires TimedUpTo(pre, t)
    ensures Timed(pre + Burst("c", t, n))
  {
  }

  lemma FullDecides(cfg: Config, start: real, m: Clients, t: real)
    requires cfg.burst >= 1 && cfg.rate >= 0.0 && Draining(cfg, start, m, "c", t, cfg.burst - 1)
    ensures Allowed(cfg, m, Request("c", t)) <==> start >= cfg.burst as real
  {
    RequestNow(cfg, m, "c", t);
  }

  lemma DecisionLast(cfg: Config, evict: bool, evs: seq<Event>, e: Event)
    ensures Decision(cfg, evict, evs + [e], |evs|) == Allowed(cfg, Serve(cfg, evict, evs), e)
  {
    assert (evs + [e])[..|evs|] == evs;
  }

  lemma LastAllowed(cfg: Config, evict: bool, pre: seq<Event>, t: real)
    requires cfg.burst >= 1 && cfg.rate >= 0.0 && Sound(cfg, Serve(cfg, evict, pre), t)
    ensures Allowed(cfg, Serve(cfg, evict, pre + Burst("c", t, cfg.burst - 1)), Request("c", t)) <==>
            Level(cfg, Serve(cfg, evict, pre), "c", t) >= cfg.burst as real
  {
    BurstDrains(cfg, evict, pre, "c", t, cfg.burst - 1);
    FullDecides(cfg, Level(cfg, Serve(cfg, evict, pre), "c", t),
                Serve(cfg, evict, pre + Burst("c", t, cfg.burst - 1)), t);
  }

  /** The last of burst requests at one moment passes exactly when the bucket was full. */
  lemma LastOfBurst(cfg: Config, evict: bool, pre: seq<Event>, t: real)
    requires cfg.burst >= 1 && cfg.rate >= 0.0 && Sound(cfg, Serve(cfg, evict, pre), t)
    ensures var evs := pre + Burst("c", t, cfg.burst);
            Decision(cfg, evict, evs, |evs| - 1) <==> Level(cfg, Serve(cfg, evict, pre), "c", t) >= cfg.burst as real
  {
    LastAllowed(cfg, evict, pre, t);
    BurstSnoc(pre, "c", t, cfg.burst - 1);
    DecisionLast(cfg, evict, pre + Burst("c", t, cfg.burst - 1), Request("c", t));
  }

  /** Drain the bucket, let the cleanup run, ask burst times again: with eviction the last
      request passes, without it the last request is denied. */
  lemma ObservableOtherwise(cfg: Config)
    requires cfg.burst >= 1 && cfg.rate >= 0.0 && IDLE * cfg.rate < cfg.burst as real
    ensures !EvictionUnobservable(cfg)
  {
    var t := LateButNotFull(cfg);
    var pre := Drain(cfg) + [Tick(t)];
    AfterTick(cfg, t);
    TickTimed(Drain(cfg), t);
    AlwaysSound(cfg, true, pre, t);
    AlwaysSound(cfg, false, pre, t);
    LastOfBurst(cfg, true, pre, t);
    LastOfBurst(cfg, false, pre, t);
    BurstTimed(pre, t, cfg.burst);
    var evs := pre + Burst("c", t, cfg.burst);
    assert Decision(cfg, true, evs, |evs| - 1) != Decision(cfg, false, evs, |evs| - 1);
  }

  /** Eviction is unobservable exactly when an idle minute refills the bucket. */
  lemma EvictionUnobservableIff(cfg: Config)
    requires cfg.burst >= 1 && cfg.rate >= 0.0
    ensures EvictionUnobservable(cfg) <==> IDLE * cfg.rate >= cfg.burst as real
  {
    if IDLE * cfg.rate >= cfg.burst as real { UnobservableWhenIdleRefills(cfg); } else { ObservableOtherwise(cfg); }
  }

  function Without(evs: seq<Event>, k: nat): seq<Event>
    requires k < |evs|
  {
    evs[..k] + evs[k + 1..]
  }

  lemma DeniedIsSame(cfg: Config, m: Clients, e: Event, now: real)
    requires cfg.burst >= 1 && cfg.rate >= 0.0 && e.Request? && Sound(cfg, m, e.at) && e.at <= now
    requires !Allowed(cfg, m, e)
    ensures Same(cfg, Decide(cfg, m, e.id, e.at).0, m, now)
  {
    forall id, u | u >= now ensures Level(cfg, Decide(cfg, m, e.id, e.at).0, id, u) == Level(cfg, m, id, u) {
      RequestEffect(cfg, m, e.id, e.at, id, u);
    }
  }

  lemma ServeAt(cfg: Config, evict: bool, evs: seq<Event>, j: nat)
    requires j < |evs|
    ensures Serve(cfg, evict, evs[..j + 1]) == Handle(cfg, evict, Serve(cfg, evict, evs[..j]), evs[j])
  {
    assert evs[..j + 1][..j] == evs[..j];
  }

  lemma SoundAt(cfg: Config, evict: bool, evs: seq<Event>, j: nat)
    requires cfg.burst >= 1 && cfg.rate >= 0.0 && Timed(evs) && j < |evs|
    ensures Sound(cfg, Serve(cfg, evict, evs[..j]), evs[j].at)
  {
    AlwaysSound(cfg, evict, evs[..j], evs[j].at);
  }

  lemma WithoutParts(evs: seq<Event>, k: nat)
    requires k < |evs| && Timed(evs)
    ensures Timed(Without(evs, k)) && Without(evs, k)[..k] == evs[..k]
    ensures forall j :: k < j < |evs| ==> Without(evs, k)[j - 1] == evs[j]
  {
    var w := Without(evs, k);
    forall i, j | 0 <= i < j < |w| ensures w[i].at <= w[j].at {
      assert w[i] == evs[if i < k then i else i + 1] && w[j] == evs[if j < k then j else j + 1];
    }
  }

  ghost predicate Denied(cfg: Config, evict: bool, evs: seq<Event>, k: nat) {
    k < |evs| && Timed(evs) && evs[k].Request? && !Decision(cfg, evict, evs, k)
  }

  /** Before event j the trace and the trace without event k cannot be told apart. */
  ghost predicate SameAt(cfg: Config, evict: bool, evs: seq<Event>, w: seq<Event>, j: nat)
    requires 0 < j < |evs| && j <= |w| + 1
  {
    Same(cfg, Serve(cfg, evict, evs[..j]), Serve(cfg, evict, w[..j - 1]), evs[j].at)
  }

  lemma SameAtStep(cfg: Config, evict: bool, evs: seq<Event>, w: seq<Event>, j: nat)
    requires cfg.burst >= 1 && cfg.rate >= 0.0 && Harmless(cfg, evict) && Timed(evs) && Timed(w)
    requires 1 < j < |evs| && j <= |w| + 1 && w[j - 2] == evs[j - 1] && SameAt(cfg, evict, evs, w, j - 1)
    ensures SameAt(cfg, evict, evs, w, j)
  {
    var i := j - 2;
    SoundAt(cfg, evict, evs, i + 1);
    ServeAt(cfg, evict, evs, i + 1);
    SoundAt(cfg, evict, w, i);
    ServeAt(cfg, evict, w, i);
    SameStep(cfg, evict, evict, Serve(cfg, evict, evs[..i + 1]), Serve(cfg, evict, w[..i]), w[i]);
  }

  lemma SameAtStart(cfg: Config, evict: bool, evs: seq<Event>, k: nat)
    requires cfg.burst >= 1 && cfg.rate >= 0.0 && Denied(cfg, evict, evs, k) && k + 1 < |evs|
    ensures SameAt(cfg, evict, evs, Without(evs, k), k + 1)
  {
    WithoutParts(evs, k);
    SoundAt(cfg, evict, evs, k);
    ServeAt(cfg, evict, evs, k);
    DeniedIsSame(cfg, Serve(cfg, evict, evs[..k]), evs[k], evs[k + 1].at);
  }

  lemma {:induction false} SameWithoutDenied(cfg: Config, evict: bool, evs: seq<Event>, k: nat, j: nat)
    requires cfg.burst >= 1 && cfg.rate >= 0.0 && Harmless(cfg, evict) && Denied(cfg, evict, evs, k) && k < j < |evs|
    ensures SameAt(cfg, evict, evs, Without(evs, k), j)
  {
    if j == k + 1 {
      SameAtStart(cfg, evict, evs, k);
    } else {
      SameWithoutDenied(cfg, evict, evs, k, j - 1);
      WithoutParts(evs, k);
      SameAtStep(cfg, evict, evs, Without(evs, k), j);
    }
  }

  /** Removing a denied request from any trace changes no later decision. */
  ghost predicate DenialsUnobservable(cfg: Config, evict: bool) {
    forall evs: seq<Event>, k: nat, j: nat :: Denied(cfg, evict, evs, k) && k < j < |evs| ==>
      Decision(cfg, evict, Without(evs, k), j - 1) == Decision(cfg, evict, evs, j)
  }

  lemma DenialUnobservable(cfg: Config, evict: bool, evs: seq<Event>, k: nat, j: nat)
    requires cfg.burst >= 1 && cfg.rate >= 0.0 && Harmless(cfg, evict) && Denied(cfg, evict, evs, k) && k < j < |evs|
    ensures Decision(cfg, evict, Without(evs, k), j - 1) == Decision(cfg, evict, evs, j)
  {
    var w := Without(evs, k);
    WithoutParts(evs, k);
    SameWithoutDenied(cfg, evict, evs, k, j);
    SoundAt(cfg, evict, evs, j);
    SoundAt(cfg, evict, w, j - 1);
    SameStep(cfg, evict, evict, Serve(cfg, evict, evs[..j]), Serve(cfg, evict, w[..j - 1]), evs[j]);
  }

  /** A moment at which an empty bucket holds less than one token. */
  lemma Soon(r: real) returns (d: real)
    requires r >= 0.0
    ensures 0.0 < d <= 1.0 && d * r < 1.0
  {
    d := 1.0 / (1.0 + r);
    SoonEnough(r, d);
  }

  lemma SoonEnough(r: real, d: real)
    requires r >= 0.0 && d > 0.0 && d * (1.0 + r) == 1.0
    ensures d <= 1.0 && d * r < 1.0
  {
    var x := d * r;
    assert d * (1.0 + r) == d + x;
    assert x >= 0.0;
  }

  lemma MoreTimes(a: real, b: real, r: real)
    requires a >= b && r >= 0.0
    ensures a * r >= b * r
  {
    assert (a - b) * r >= 0.0;
  }

  lemma GainSplit(r: real, d: real, t: real)
    ensures d * r + (t - d) * r == t * r
  {
  }

  lemma FromZero(r: real, t: real)
    ensures 0.0 + (t - 0.0) * r == t * r
  {
    assert t - 0.0 == t;
  }

  lemma DeniedSoon(cfg: Config, m: Clients, d: real)
    requires cfg.burst >= 1 && cfg.rate >= 0.0 && "c" in m && m["c"] == Client(0.0, 0.0)
    requires 0.0 < d && d * cfg.rate < 1.0
    ensures Decide(cfg, m, "c", d) == (m["c" := Client(d * cfg.rate, d)], false)
  {
    FromZero(cfg.rate, d);
    assert 1.0 <= cfg.burst as real;
    assert Refilled(cfg, m["c"], d) == d * cfg.rate;
  }

  /** The denied request renewed the client's time, so the cleanup keeps the bucket. */
  lemma KeptByDenial(cfg: Config, m: Clients, d: real, t: real)
    requires "c" in m && m["c"] == Client(d * cfg.rate, d)
    requires t <= IDLE + d && t * cfg.rate < cfg.burst as real
    ensures Level(cfg, Evicted(m, t), "c", t) < cfg.burst as real
  {
    GainSplit(cfg.rate, d, t);
    assert Evicted(m, t)["c"] == m["c"];
    assert Refilled(cfg, m["c"], t) == t * cfg.rate;
  }

  lemma DeniedKeeps(cfg: Config, d: real, t: real)
    requires cfg.burst >= 1 && cfg.rate >= 0.0 && 0.0 < d && d * cfg.rate < 1.0
    requires t <= IDLE + d && t * cfg.rate < cfg.burst as real
    ensures !Allowed(cfg, Serve(cfg, true, Drain(cfg)), Request("c", d))
    ensures Level(cfg, Serve(cfg, true, Drain(cfg) + [Request("c", d)] + [Tick(t)]), "c", t) < cfg.burst as real
  {
    var m := Serve(cfg, true, Drain(cfg));
    Drained(cfg, true);
    DeniedSoon(cfg, m, d);
    ServeSnoc(cfg, true, Drain(cfg), Request("c", d));
    ServeSnoc(cfg, true, Drain(cfg) + [Request("c", d)], Tick(t));
    KeptByDenial(cfg, m["c" := Client(d * cfg.rate, d)], d, t);
  }

  /** Drain, at d one denied request, at t the cleanup, and a burst whose last request tells. */
  function Telltale(cfg: Config, d: real, t: real): seq<Event>
    requires cfg.burst >= 1
  {
    Drain(cfg) + [Request("c", d)] + [Tick(t)] + Burst("c", t, cfg.burst)
  }

  function TwoBursts(cfg: Config, t: real): seq<Event>
    requires cfg.burst >= 1
  {
    Drain(cfg) + [Tick(t)] + Burst("c", t, cfg.burst)
  }

  lemma TelltaleShape(cfg: Config, d: real, t: real)
    requires cfg.burst >= 1 && 0.0 < d <= t
    ensures TimedUpTo(Drain(cfg) + [Request("c", d)], t) && TimedUpTo(Drain(cfg), t)
    ensures |Telltale(cfg, d, t)| > cfg.burst + 1
    ensures Without(Telltale(cfg, d, t), cfg.burst) == TwoBursts(cfg, t)
  {
  }

  lemma TelltaleDenied(cfg: Config, d: real, t: real)
    requires cfg.burst >= 1 && 0.0 < d <= t && !Allowed(cfg, Serve(cfg, true, Drain(cfg)), Request("c", d))
    ensures Denied(cfg, true, Telltale(cfg, d, t), cfg.burst)
  {
    var evs := Telltale(cfg, d, t);
    assert evs[..cfg.burst] == Drain(cfg) && evs[cfg.burst] == Request("c", d);
  }

  lemma SoundBeforeBurst(cfg: Config, pre: seq<Event>, t: real)
    requires cfg.burst >= 1 && cfg.rate >= 0.0 && TimedUpTo(pre, t)
    ensures Sound(cfg, Serve(cfg, true, pre + [Tick(t)]), t)
  {
    TickTimed(pre, t);
    AlwaysSound(cfg, true, pre + [Tick(t)], t);
  }

  lemma LastTells(cfg: Config, pre: seq<Event>, t: real)
    requires cfg.burst >= 1 && cfg.rate >= 0.0 && TimedUpTo(pre, t)
    ensures var evs := pre + [Tick(t)] + Burst("c", t, cfg.burst);
            Decision(cfg, true, evs, |evs| - 1) <==>
            Level(cfg, Serve(cfg, true, pre + [Tick(t)]), "c", t) >= cfg.burst as real
  {
    SoundBeforeBurst(cfg, pre, t);
    LastOfBurst(cfg, true, pre + [Tick(t)], t);
  }

  lemma LastDiffers(cfg: Config, evs: seq<Event>, k: nat)
    requires Denied(cfg, true, evs, k) && k + 1 < |evs|
    requires Decision(cfg, true, Without(evs, k), |Without(evs, k)| - 1) != Decision(cfg, true, evs, |evs| - 1)
    ensures !DenialsUnobservable(cfg, true)
  {
    var j := |evs| - 1;
    assert Decision(cfg, true, Without(evs, k), j - 1) != Decision(cfg, true, evs, j);
  }

  lemma TelltaleLast(cfg: Config, d: real, t: real)
    requires cfg.burst >= 1 && cfg.rate >= 0.0 && 0.0 < d <= t
    requires Level(cfg, Serve(cfg, true, Drain(cfg) + [Request("c", d)] + [Tick(t)]), "c", t) < cfg.burst as real
    ensures !Decision(cfg, true, Telltale(cfg, d, t), |Telltale(cfg, d, t)| - 1)
  {
    TelltaleShape(cfg, d, t);
    LastTells(cfg, Drain(cfg) + [Request("c", d)], t);
  }

  lemma WithoutDeniedLast(cfg: Config, t: real)
    requires cfg.burst >= 1 && cfg.rate >= 0.0 && 0.0 <= t
    requires Level(cfg, Serve(cfg, true, Drain(cfg) + [Tick(t)]), "c", t) == cfg.burst as real
    ensures Decision(cfg, true, TwoBursts(cfg, t), |TwoBursts(cfg, t)| - 1)
  {
    assert TimedUpTo(Drain(cfg), t);
    LastTells(cfg, Drain(cfg), t);
  }

  lemma DenialTells(cfg: Config, d: real, t: real)
    requires cfg.burst >= 1 && 0.0 < d <= t && Denied(cfg, true, Telltale(cfg, d, t), cfg.burst)
    requires !Decision(cfg, true, Telltale(cfg, d, t), |Telltale(cfg, d, t)| - 1)
    requires Decision(cfg, true, TwoBursts(cfg, t), |TwoBursts(cfg, t)| - 1)
    ensures !DenialsUnobservable(cfg, true)
  {
    TelltaleShape(cfg, d, t);
    LastDiffers(cfg, Telltale(cfg, d, t), cfg.burst);
  }

  lemma DenialObservable(cfg: Config)
    requires cfg.burst >= 1 && cfg.rate >= 0.0 && !Harmless(cfg, true)
    ensures !DenialsUnobservable(cfg, true)
  {
    var d := Soon(cfg.rate);
    var late := LateButNotFull(cfg);
    var t := if late <= IDLE + d then late else IDLE + d;
    MoreTimes(late, t, cfg.rate);
    DeniedKeeps(cfg, d, t);
    AfterTick(cfg, t);
    TelltaleDenied(cfg, d, t);
    TelltaleLast(cfg, d, t);
    WithoutDeniedLast(cfg, t);
    DenialTells(cfg, d, t);
  }

  /** Removing a denied request changes no later decision, on any trace, if and only if nothing is
      evicted or an idle minute refills the bucket. */
  lemma DenialUnobservableIff(cfg: Config, evict: bool)
    requires cfg.burst >= 1 && cfg.rate >= 0.0
    ensures DenialsUnobservable(cfg, evict) <==> Harmless(cfg, evict)
  {
    if Harmless(cfg, evict) {
      forall evs: seq<Event>, k: nat, j: nat | Denied(cfg, evict, evs, k) && k < j < |evs|
        ensures Decision(cfg, evict, Without(evs, k), j - 1) == Decision(cfg, evict, evs, j)
      {
        DenialUnobservable(cfg, evict, evs, k, j);
      }
    } else {
      DenialObservable(cfg);
    }
  }

  /* ---------- The window bound ---------- */

  /** Requests of one client allowed at times in [a, b]. */
  function Granted(cfg: Config, evict: bool, evs: seq<Event>, id: string, a: real, b: real): nat {
    if evs == [] then 0
    else
      var e := evs[|evs| - 1];
      Granted(cfg, evict, evs[..|evs| - 1], id, a, b)
      + if e.Request? && e.id == id && a <= e.at <= b && Decision(cfg, evict, evs, |evs| - 1) then 1 else 0
  }

  ghost predicate WindowInv(cfg: Config, evict: bool, evs: seq<Event>, id: string, a: real, b: real, t: real) {
    var n := Granted(cfg, evict, evs, id, a, b) as real;
    && (t < a ==> n == 0.0)
    && (a <= t <= b ==> n <= cfg.burst as real + (t - a) * cfg.rate - Level(cfg, Serve(cfg, evict, evs), id, t))
    && (t > b ==> n <= cfg.burst as real + (b - a) * cfg.rate)
  }

  lemma LevelLater(cfg: Config, m: Clients, id: string, t: real, u: real)
    requires cfg.burst >= 1 && cfg.rate >= 0.0 && Sound(cfg, m, t) && t <= u
    ensures 0.0 <= Level(cfg, m, id, t)
    ensures Level(cfg, m, id, u) <= cfg.burst as real
    ensures Level(cfg, m, id, u) <= Level(cfg, m, id, t) + (u - t) * cfg.rate
  {
    GainNonNegative(cfg, t, u);
    if id in m {
      GainAdds(cfg, m[id].lastSeen, t, u);
      RefillBounds(cfg, m[id], t);
    }
  }

  lemma WindowLater(cfg: Config, evict: bool, evs: seq<Event>, id: string, a: real, b: real, t: real, u: real)
    requires cfg.burst >= 1 && cfg.rate >= 0.0 && a <= b && t <= u
    requires Sound(cfg, Serve(cfg, evict, evs), t) && WindowInv(cfg, evict, evs, id, a, b, t)
    ensures WindowInv(cfg, evict, evs, id, a, b, u)
  {
    var m := Serve(cfg, evict, evs);
    LevelLater(cfg, m, id, t, u);
    GainAdds(cfg, a, t, u);
    GainAdds(cfg, a, t, b);
    GainNonNegative(cfg, a, b);
    if t <= b { GainNonNegative(cfg, t, b); }
    if a <= u { GainNonNegative(cfg, a, u); }
  }

  /** One event lowers a client's level by at least what it lets through. */
  lemma HandleLowers(cfg: Config, evict: bool, m: Clients, e: Event, id: string)
    requires cfg.burst >= 1 && cfg.rate >= 0.0 && Harmless(cfg, evict) && Sound(cfg, m, e.at)
    ensures Level(cfg, Handle(cfg, evict, m, e), id, e.at) <=
            Level(cfg, m, id, e.at) - if e.Request? && e.id == id && Allowed(cfg, m, e) then 1.0 else 0.0
  {
    if e.Request? {
      RequestNow(cfg, m, e.id, e.at);
      if e.id != id { RequestEffect(cfg, m, e.id, e.at, id, e.at); }
    } else if evict {
      EvictionEffect(cfg, m, e.at, id, e.at);
    }
  }

  /** The last event of a trace moves a client's level and its count together. */
  lemma CountStep(cfg: Config, evict: bool, evs: seq<Event>, id: string, a: real, b: real)
    requires cfg.burst >= 1 && cfg.rate >= 0.0 && Harmless(cfg, evict) && evs != [] && Timed(evs)
    ensures var front, t := evs[..|evs| - 1], Last(evs);
            var passed := Granted(cfg, evict, evs, id, a, b) - Granted(cfg, evict, front, id, a, b);
            && 0 <= passed <= (if a <= t <= b then 1 else 0)
            && Level(cfg, Serve(cfg, evict, evs), id, t) <= Level(cfg, Serve(cfg, evict, front), id, t) - passed as real
  {
    var front, e := evs[..|evs| - 1], evs[|evs| - 1];
    AlwaysSound(cfg, evict, front, e.at);
    HandleLowers(cfg, evict, Serve(cfg, evict, front), e, id);
  }

  lemma {:induction false} WindowAlways(cfg: Config, evict: bool, evs: seq<Event>, id: string, a: real, b: real,
                                        t: real)
    requires cfg.burst >= 1 && cfg.rate >= 0.0 && Harmless(cfg, evict) && a <= b
    requires TimedUpTo(evs, t)
    ensures WindowInv(cfg, evict, evs, id, a, b, t)
  {
    if evs == [] {
      if a <= t { GainNonNegative(cfg, a, t); }
      GainNonNegative(cfg, a, b);
    } else {
      var front, u := evs[..|evs| - 1], Last(evs);
      WindowAlways(cfg, evict, front, id, a, b, u);
      CountStep(cfg, evict, evs, id, a, b);
      AlwaysSound(cfg, evict, evs, u);
      WindowLater(cfg, evict, evs, id, a, b, u, t);
    }
  }

  ghost predicate Bounded(cfg: Config, evict: bool, evs: seq<Event>, id: string, a: real, T: real) {
    Granted(cfg, evict, evs, id, a, a + T) as real <= cfg.burst as real + cfg.rate * T
  }

  lemma WindowBound(cfg: Config, evict: bool, evs: seq<Event>, id: string, a: real, T: real)
    requires cfg.burst >= 1 && cfg.rate >= 0.0 && Harmless(cfg, evict) && T >= 0.0 && Timed(evs)
    ensures Bounded(cfg, evict, evs, id, a, T)
  {
    var b := a + T;
    var t := if Last(evs) > b + 1.0 then Last(evs) else b + 1.0;
    WindowAlways(cfg, evict, evs, id, a, b, t);
    assert (b - a) * cfg.rate == cfg.rate * T;
  }

  lemma GrantedSnoc(cfg: Config, evict: bool, evs: seq<Event>, e: Event, a: real, b: real)
    requires e.Request? && a <= e.at <= b && Allowed(cfg, Serve(cfg, evict, evs), e)
    ensures Granted(cfg, evict, evs + [e], e.id, a, b) == Granted(cfg, evict, evs, e.id, a, b) + 1
  {
    assert (evs + [e])[..|evs|] == evs;
  }

  lemma OneGranted(cfg: Config, evict: bool, start: real, evs: seq<Event>, t: real, n: nat, a: real, b: real)
    requires cfg.burst >= 1 && cfg.rate >= 0.0 && a <= t <= b && (n + 1) as real <= start
    requires Draining(cfg, start, Serve(cfg, evict, evs), "c", t, n)
    ensures Granted(cfg, evict, evs + [Request("c", t)], "c", a, b) == Granted(cfg, evict, evs, "c", a, b) + 1
  {
    RequestNow(cfg, Serve(cfg, evict, evs), "c", t);
    GrantedSnoc(cfg, evict, evs, Request("c", t), a, b);
  }

  /** As many requests pass as the bucket held tokens. */
  lemma {:induction false} BurstGranted(cfg: Config, evict: bool, pre: seq<Event>, t: real, n: nat, a: real, b: real)
    requires cfg.burst >= 1 && cfg.rate >= 0.0 && Sound(cfg, Serve(cfg, evict, pre), t) && a <= t <= b
    requires n as real <= Level(cfg, Serve(cfg, evict, pre), "c", t)
    ensures Granted(cfg, evict, pre + Burst("c", t, n), "c", a, b) == Granted(cfg, evict, pre, "c", a, b) + n
  {
    if n == 0 {
      BurstSnoc(pre, "c", t, 0);
    } else {
      BurstGranted(cfg, evict, pre, t, n - 1, a, b);
      BurstDrains(cfg, evict, pre, "c", t, n - 1);
      BurstSnoc(pre, "c", t, n - 1);
      OneGranted(cfg, evict, Level(cfg, Serve(cfg, evict, pre), "c", t), pre + Burst("c", t, n - 1), t, n - 1, a, b);
    }
  }

  lemma FirstGranted(cfg: Config, t: real)
    requires cfg.burst >= 1 && cfg.rate >= 0.0 && t > IDLE
    ensures Granted(cfg, true, Drain(cfg) + [Tick(t)], "c", 0.0, t) == cfg.burst
  {
    BurstGranted(cfg, true, [], 0.0, cfg.burst, 0.0, t);
    assert [] + Drain(cfg) == Drain(cfg);
    assert (Drain(cfg) + [Tick(t)])[..cfg.burst] == Drain(cfg);
  }

  /** A burst, an idle spell that the cleanup ends too early, and a second burst. */
  lemma TwoBurstsPass(cfg: Config, t: real)
    requires cfg.burst >= 1 && cfg.rate >= 0.0 && t > IDLE && t * cfg.rate < cfg.burst as real
    ensures Timed(TwoBursts(cfg, t)) && Granted(cfg, true, TwoBursts(cfg, t), "c", 0.0, t) == 2 * cfg.burst
  {
    var pre := Drain(cfg) + [Tick(t)];
    FirstGranted(cfg, t);
    AfterTick(cfg, t);
    SoundBeforeBurst(cfg, Drain(cfg), t);
    BurstGranted(cfg, true, pre, t, cfg.burst, 0.0, t);
    TickTimed(Drain(cfg), t);
    BurstTimed(pre, t, cfg.burst);
  }

  lemma Exceeds(cfg: Config, evs: seq<Event>, t: real)
    requires t * cfg.rate < cfg.burst as real && Granted(cfg, true, evs, "c", 0.0, t) == 2 * cfg.burst
    ensures !Bounded(cfg, true, evs, "c", 0.0, t)
  {
    assert 0.0 + t == t && cfg.rate * t == t * cfg.rate;
  }

  ghost predicate WindowsBounded(cfg: Config, evict: bool) {
    forall evs: seq<Event>, id: string, a: real, T: real | T >= 0.0 && Timed(evs) :: Bounded(cfg, evict, evs, id, a, T)
  }

  /** In every window of length T each client gets at most burst + rate * T requests through, for
      every trace with cleanups anywhere, if and only if nothing is evicted or an idle minute
      refills the bucket. */
  lemma WindowBoundIff(cfg: Config, evict: bool)
    requires cfg.burst >= 1 && cfg.rate >= 0.0
    ensures WindowsBounded(cfg, evict) <==> Harmless(cfg, evict)
  {
    if Harmless(cfg, evict) {
      forall evs: seq<Event>, id: string, a: real, T: real | T >= 0.0 && Timed(evs)
        ensures Bounded(cfg, evict, evs, id, a, T)
      {
        WindowBound(cfg, evict, evs, id, a, T);
      }
    } else {
      var t := LateButNotFull(cfg);
      TwoBurstsPass(cfg, t);
      Exceeds(cfg, TwoBursts(cfg, t), t);
    }
  }
}
