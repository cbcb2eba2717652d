/**
 The per-IP rate limiter with requests in flight: a request gets its limiter under the lock and takes a
 token from it later, while other requests come, go and evict. `d` bounds how much later.
 */
module RateLimiterDelays {
  import opened Options
  import opened RateLimiting

  /** A request that has got its limiter and has not used it yet. */
  datatype Flight = Flight(ip: string, limiter: int, entered: Time)

  /** Limiters are shared objects, numbered by the request that made them. One that was never used is
      full, and not in `buckets`. */
  datatype State = State(entries: map<string, Entry<int>>, buckets: map<int, Bucket>, flights: map<int, Flight>,
                         requests: int, lastCleanup: Option<Time>)

  const START := State(map[], map[], map[], 0, None)

  /** The n-th request to enter has the number n. */
  datatype Event = Enter(ip: string, at: Time) | Use(id: int, ip: string, at: Time)

  predicate Possible(s: State, e: Event, d: real) {
    e.Use? ==> e.id in s.flights && s.flights[e.id].ip == e.ip && e.at <= s.flights[e.id].entered + d
  }

  function LimiterOf(cfg: Config, s: State, id: int): Bucket
    requires id in s.flights
  {
    Ideal(cfg, s.buckets, s.flights[id].limiter, s.flights[id].entered)
  }

  function Do(cfg: Config, s: State, e: Event): State {
    match e
    case Enter(ip, at) =>
      var n := s.requests + 1;
      var due := CleansUp(cfg, n, s.lastCleanup, at);
      var entries := if due then Evicted(cfg, s.entries, at) else s.entries;
      var limiter := if ip in entries then entries[ip].limiter else n;
      State(entries[ip := Entry(limiter, at)], s.buckets, s.flights[n := Flight(ip, limiter, at)], n,
            if due then Some(at) else s.lastCleanup)
    case Use(id, ip, at) =>
      if id !in s.flights then s
      else
        s.(buckets := s.buckets[s.flights[id].limiter := Take(cfg, LimiterOf(cfg, s, id), at)],
           flights := s.flights - {id})
  }

  predicate Passes(cfg: Config, s: State, e: Event) {
    e.Use? && e.id in s.flights && Level(cfg, LimiterOf(cfg, s, e.id), e.at) >= 1.0
  }

  /** Events in time order from `now` on, each use at most `d` after its request entered. */
  predicate Timely(cfg: Config, s: State, es: seq<Event>, now: Time, d: real)
    decreases es
  {
    es == [] ||
    (now <= es[0].at && Possible(s, es[0], d) && Timely(cfg, Do(cfg, s, es[0]), es[1..], es[0].at, d))
  }

  function DoAll(cfg: Config, s: State, es: seq<Event>): State
    decreases es
  {
    if es == [] then s else DoAll(cfg, Do(cfg, s, es[0]), es[1..])
  }

  /** The requests as their buckets see them, and the answers they get. */
  function Uses(es: seq<Event>): seq<Request> {
    if es == [] then []
    else (if es[0].Use? then [Request(es[0].ip, es[0].at)] else []) + Uses(es[1..])
  }

  function Answers(cfg: Config, s: State, es: seq<Event>): (vs: seq<bool>)
    ensures |vs| == |Uses(es)|
    decreases es
  {
    if es == [] then []
    else (if es[0].Use? then [Passes(cfg, s, es[0])] else []) + Answers(cfg, Do(cfg, s, es[0]), es[1..])
  }

  // ----- One request at a time -----

  /** The cache without requests in flight, its limiters shown by their buckets. */
  ghost predicate Shows(s: State, c: Cache) {
    && Numbered(s) && s.requests == c.requests && s.lastCleanup == c.lastCleanup
    && s.entries.Keys == c.entries.Keys
    && (forall ip :: ip in s.entries ==>
          && s.entries[ip].lastSeen == c.entries[ip].lastSeen
          && s.entries[ip].limiter in s.buckets && s.buckets[s.entries[ip].limiter] == c.entries[ip].limiter)
  }

  /** Request `id` of `ip` has entered at `now`, and all others are shown. */
  ghost predicate Halfway(cfg: Config, t: State, cleaned: Cache, id: int, ip: string, now: Time) {
    && Numbered(t) && t.requests == cleaned.requests && t.lastCleanup == cleaned.lastCleanup
    && t.entries.Keys == cleaned.entries.Keys + {ip} && t.entries[ip].lastSeen == now
    && (forall other :: other in t.entries && other != ip ==>
          && t.entries[other].lastSeen == cleaned.entries[other].lastSeen
          && t.entries[other].limiter in t.buckets
          && t.buckets[t.entries[other].limiter] == cleaned.entries[other].limiter)
    && id in t.flights && t.flights[id].limiter == t.entries[ip].limiter
    && LimiterOf(cfg, t, id) == BucketOf(cfg, cleaned.entries, ip, now)
  }

  lemma EnterShows(cfg: Config, s: State, c: Cache, ip: string, now: Time)
    requires Shows(s, c)
    ensures Halfway(cfg, Do(cfg, s, Enter(ip, now)), Cleaned(cfg, c, now), s.requests + 1, ip, now)
  {
    EventKeepsNumbers(cfg, s, Enter(ip, now));
  }

  lemma UseShows(cfg: Config, t: State, cleaned: Cache, id: int, ip: string, now: Time, used: Time)
    requires Halfway(cfg, t, cleaned, id, ip, now)
    ensures var limiter := Take(cfg, BucketOf(cfg, cleaned.entries, ip, now), used);
      Shows(Do(cfg, t, Use(id, ip, used)), cleaned.(entries := cleaned.entries[ip := Entry(limiter, now)]))
  {
    EventKeepsNumbers(cfg, t, Use(id, ip, used));
  }

  /** With nothing in between, entering and using is what the limiter's Allow does. */
  lemma AllowIsEnterThenUse(cfg: Config, s: State, c: Cache, ip: string, now: Time, used: Time)
    requires Shows(s, c)
    ensures var entered, use := Do(cfg, s, Enter(ip, now)), Use(s.requests + 1, ip, used);
      && Passes(cfg, entered, use) == AdmitsAt(cfg, c, Request(ip, now), used)
      && Shows(Do(cfg, entered, use), ServeAt(cfg, c, Request(ip, now), used))
  {
    EnterShows(cfg, s, c, ip, now);
    UseShows(cfg, Do(cfg, s, Enter(ip, now)), Cleaned(cfg, c, now), s.requests + 1, ip, now, used);
    hide Shows, Do, Cleaned, Numbered;
  }

  /** No two addresses share a limiter, and the next request's number is not taken. */
  ghost predicate Numbered(s: State) {
    && (forall id :: id in s.flights ==> id <= s.requests && s.flights[id].limiter <= s.requests)
    && (forall ref :: ref in s.buckets ==> ref <= s.requests)
    && (forall ip :: ip in s.entries ==> s.entries[ip].limiter <= s.requests)
    && (forall a, b :: a in s.entries && b in s.entries && s.entries[a].limiter == s.entries[b].limiter ==> a == b)
  }

  lemma EventKeepsNumbers(cfg: Config, s: State, e: Event)
    requires Numbered(s)
    ensures Numbered(Do(cfg, s, e))
  {
  }

  function EnterCount(es: seq<Event>): nat {
    if es == [] then 0 else (if es[0].Enter? then 1 else 0) + EnterCount(es[1..])
  }

  /** Each request that enters takes its token once, or is still in flight. */
  lemma {:induction false} EachUsedOnce(cfg: Config, s: State, es: seq<Event>, now: Time, d: real)
    requires Numbered(s) && Timely(cfg, s, es, now, d)
    ensures |DoAll(cfg, s, es).flights.Keys| + |Uses(es)| == |s.flights.Keys| + EnterCount(es)
    decreases es
  {
    if es != [] {
      var t := Do(cfg, s, es[0]);
      EventKeepsNumbers(cfg, s, es[0]);
      FlightsChange(cfg, s, es[0]);
      EachUsedOnce(cfg, t, es[1..], es[0].at, d);
      hide Do, Numbered;
    }
  }

  lemma FlightsChange(cfg: Config, s: State, e: Event)
    requires Numbered(s) && (e.Use? ==> e.id in s.flights)
    ensures |Do(cfg, s, e).flights.Keys| == |s.flights.Keys| + (if e.Enter? then 1 else -1)
  {
    if e.Enter? {
      assert Do(cfg, s, e).flights.Keys == s.flights.Keys + {s.requests + 1};
    } else {
      assert Do(cfg, s, e).flights.Keys == s.flights.Keys - {e.id};
    }
  }

  // ----- Eviction is unobservable -----

  /** Nothing is ever admitted, or a bucket that nobody has used for the idle limit less the delay is
      full again. */
  predicate HarmlessWithin(cfg: Config, d: real) {
    || cfg.cleanupEvery <= 0 || cfg.cleanupAfter <= 0.0
    || cfg.burst <= 0
    || cfg.burst as real <= Refill(cfg, cfg.cleanupAfter - d)
  }

  predicate Restored<K>(cfg: Config, bs: map<K, Bucket>, key: K, now: Time) {
    key in bs ==> Full(cfg, bs[key], now)
  }

  predicate SameBucket(s: State, bs: Buckets, ip: string)
    requires ip in s.entries
  {
    s.entries[ip].limiter in s.buckets && ip in bs && s.buckets[s.entries[ip].limiter] == bs[ip]
  }

  /** Every known address has the ideal limiter's bucket, or both are full; forgotten ones are full. */
  ghost predicate Matches(cfg: Config, s: State, bs: Buckets, now: Time) {
    && (forall ip :: ip in s.entries ==>
          SameBucket(s, bs, ip)
          || (Restored(cfg, s.buckets, s.entries[ip].limiter, now) && Restored(cfg, bs, ip, now)))
    && (forall ip :: ip in bs && ip !in s.entries ==> Full(cfg, bs[ip], now))
  }

  /** A bucket is used at most `d` after its entry was last seen, and a request that may still use one
      has the one of the entry. */
  ghost predicate Current(s: State, bs: Buckets, now: Time, d: real) {
    && (forall ip :: ip in bs ==> bs[ip].tokens >= 0.0 && bs[ip].last <= now)
    && (forall ip :: ip in bs && ip in s.entries ==> bs[ip].last <= s.entries[ip].lastSeen + d)
    && (forall id :: id in s.flights && now <= s.flights[id].entered + d ==>
          var f := s.flights[id];
          f.ip in s.entries && s.entries[f.ip].limiter == f.limiter && f.entered <= s.entries[f.ip].lastSeen)
    && (forall id :: id in s.flights ==> s.flights[id].entered <= now)
  }

  ghost predicate Agreed(cfg: Config, s: State, bs: Buckets, now: Time, d: real) {
    Numbered(s) && Matches(cfg, s, bs, now) && Current(s, bs, now, d)
  }

  lemma MatchesLater(cfg: Config, s: State, bs: Buckets, now: Time, later: Time)
    requires Matches(cfg, s, bs, now) && now <= later
    ensures Matches(cfg, s, bs, later)
  {
    forall ref | ref in s.buckets && Full(cfg, s.buckets[ref], now) ensures Full(cfg, s.buckets[ref], later) {
      FullStays(cfg, s.buckets[ref], now, later);
    }
    forall ip | ip in bs && Full(cfg, bs[ip], now) ensures Full(cfg, bs[ip], later) {
      FullStays(cfg, bs[ip], now, later);
    }
  }

  /** Whatever a cleanup evicts is full, and nobody can use its limiter any more. */
  lemma EvictedIsFull(cfg: Config, s: State, bs: Buckets, now: Time, later: Time, d: real, ip: string)
    requires HarmlessWithin(cfg, d) && cfg.burst > 0 && cfg.cleanupAfter > 0.0 && cfg.cleanupEvery > 0
    requires Current(s, bs, now, d) && now <= later && ip in s.entries && Idle(cfg, s.entries[ip], later)
    ensures ip in bs ==> Full(cfg, bs[ip], later)
    ensures forall id :: id in s.flights && s.flights[id].ip == ip ==> later > s.flights[id].entered + d
  {
    if d >= cfg.cleanupAfter {
      RefillGrows(cfg, cfg.cleanupAfter - d, 0.0);
    }
    if ip in bs {
      RefillGrows(cfg, cfg.cleanupAfter - d, later - bs[ip].last);
    }
  }

  lemma EnterAgrees(cfg: Config, s: State, bs: Buckets, now: Time, d: real, ip: string, at: Time)
    requires HarmlessWithin(cfg, d) && cfg.burst > 0 && Agreed(cfg, s, bs, now, d) && now <= at && d >= 0.0
    ensures Agreed(cfg, Do(cfg, s, Enter(ip, at)), bs, at, d)
  {
    EventKeepsNumbers(cfg, s, Enter(ip, at));
    MatchesLater(cfg, s, bs, now, at);
    if CleansUp(cfg, s.requests + 1, s.lastCleanup, at) {
      forall other | other in s.entries && Idle(cfg, s.entries[other], at)
        ensures other in bs ==> Full(cfg, bs[other], at)
        ensures forall id :: id in s.flights && s.flights[id].ip == other ==> at > s.flights[id].entered + d
      {
        EvictedIsFull(cfg, s, bs, now, at, d, other);
      }
    }
    EnterMatches(cfg, s, bs, ip, at);
  }

  lemma EnterMatches(cfg: Config, s: State, bs: Buckets, ip: string, at: Time)
    requires Numbered(s) && Matches(cfg, s, bs, at)
    requires CleansUp(cfg, s.requests + 1, s.lastCleanup, at) ==>
      forall other :: other in s.entries && Idle(cfg, s.entries[other], at) ==> Restored(cfg, bs, other, at)
    ensures Matches(cfg, Do(cfg, s, Enter(ip, at)), bs, at)
  {
  }

  lemma UseAgrees(cfg: Config, s: State, bs: Buckets, now: Time, d: real, id: int, ip: string, at: Time)
    requires cfg.burst > 0 && Agreed(cfg, s, bs, now, d) && now <= at && Possible(s, Use(id, ip, at), d)
    ensures Passes(cfg, s, Use(id, ip, at)) == IdealAdmits(cfg, bs, Request(ip, at))
    ensures Agreed(cfg, Do(cfg, s, Use(id, ip, at)), IdealServe(cfg, bs, Request(ip, at)), at, d)
  {
    EventKeepsNumbers(cfg, s, Use(id, ip, at));
    MatchesLater(cfg, s, bs, now, at);
    SameLevel(cfg, s, bs, id, ip, at);
  }

  /** The limiter of a request that may still use it, and the ideal one. */
  lemma SameLevel(cfg: Config, s: State, bs: Buckets, id: int, ip: string, at: Time)
    requires Matches(cfg, s, bs, at) && id in s.flights && ip in s.entries && s.flights[id].entered <= at
    requires s.entries[ip].limiter == s.flights[id].limiter
    ensures var a, b := LimiterOf(cfg, s, id), Ideal(cfg, bs, ip, at);
      && Level(cfg, a, at) == Level(cfg, b, at)
      && (a == b || (Full(cfg, a, at) && Full(cfg, b, at)))
  {
    var a, b := LimiterOf(cfg, s, id), Ideal(cfg, bs, ip, at);
    FreshIsFull(cfg, s.flights[id].entered, at);
    FreshIsFull(cfg, at, at);
    if !SameBucket(s, bs, ip) {
      FullLevel(cfg, a, at);
      FullLevel(cfg, b, at);
    }
  }

  lemma FreshIsFull(cfg: Config, made: Time, now: Time)
    requires made <= now
    ensures Full(cfg, Fresh(cfg, made), now)
  {
    RefillGrows(cfg, 0.0, now - made);
  }

  function End(es: seq<Event>, now: Time): Time {
    if es == [] then now else es[|es| - 1].at
  }

  lemma {:induction false} RunAgrees(cfg: Config, s: State, bs: Buckets, now: Time, d: real, es: seq<Event>)
    requires HarmlessWithin(cfg, d) && cfg.burst > 0 && d >= 0.0
    requires Agreed(cfg, s, bs, now, d) && Timely(cfg, s, es, now, d)
    ensures Answers(cfg, s, es) == IdealVerdicts(cfg, bs, Uses(es))
    ensures Agreed(cfg, DoAll(cfg, s, es), IdealServeAll(cfg, bs, Uses(es)), End(es, now), d)
    decreases es
  {
    if es != [] {
      var e := es[0];
      match e
      case Enter(ip, at) =>
        EnterAgrees(cfg, s, bs, now, d, ip, at);
        RunAgrees(cfg, Do(cfg, s, e), bs, at, d, es[1..]);
        assert Uses(es) == Uses(es[1..]);
      case Use(id, ip, at) =>
        UseAgrees(cfg, s, bs, now, d, id, ip, at);
        RunAgrees(cfg, Do(cfg, s, e), IdealServe(cfg, bs, Request(ip, at)), at, d, es[1..]);
        assert Uses(es)[1..] == Uses(es[1..]);
    }
  }

  lemma {:induction false} NothingPasses(cfg: Config, s: State, bs: Buckets, es: seq<Event>)
    requires cfg.burst <= 0
    ensures Answers(cfg, s, es) == IdealVerdicts(cfg, bs, Uses(es))
    ensures forall i :: 0 <= i < |Uses(es)| ==> !Answers(cfg, s, es)[i]
    decreases es
  {
    if es != [] {
      var e := es[0];
      if e.Use? {
        NothingPasses(cfg, Do(cfg, s, e), IdealServe(cfg, bs, Request(e.ip, e.at)), es[1..]);
        assert Uses(es)[1..] == Uses(es[1..]);
      } else {
        NothingPasses(cfg, Do(cfg, s, e), bs, es[1..]);
        assert Uses(es) == Uses(es[1..]);
      }
    }
  }

  /** However requests overlap, within the delay, all answers are those of the limiter that never evicts,
      asked at the moments when the tokens are taken. */
  lemma DelaysUnobservable(cfg: Config, es: seq<Event>, start: Time, d: real)
    requires HarmlessWithin(cfg, d) && d >= 0.0 && Timely(cfg, START, es, start, d)
    ensures Answers(cfg, START, es) == IdealVerdicts(cfg, map[], Uses(es))
  {
    if cfg.burst > 0 {
      RunAgrees(cfg, START, map[], start, d, es);
    } else {
      NothingPasses(cfg, START, map[], es);
    }
  }

  lemma {:induction false} TimelyParts(cfg: Config, s: State, xs: seq<Event>, ys: seq<Event>, now: Time, d: real)
    ensures Timely(cfg, s, xs + ys, now, d)
      <==> Timely(cfg, s, xs, now, d) && Timely(cfg, DoAll(cfg, s, xs), ys, End(xs, now), d)
    decreases xs
  {
    if xs == [] {
      assert xs + ys == ys;
    } else {
      assert (xs + ys)[1..] == xs[1..] + ys;
      TimelyParts(cfg, Do(cfg, s, xs[0]), xs[1..], ys, xs[0].at, d);
      assert End(xs, now) == End(xs[1..], xs[0].at);
    }
  }

  lemma {:induction false} UsesOrdered(cfg: Config, s: State, es: seq<Event>, now: Time, d: real)
    requires Timely(cfg, s, es, now, d)
    ensures Ordered(Uses(es), now) && now <= End(es, now)
    ensures Uses(es) != [] ==> Uses(es)[|Uses(es)| - 1].at <= End(es, now)
    decreases es
  {
    if es != [] {
      UsesOrdered(cfg, Do(cfg, s, es[0]), es[1..], es[0].at, d);
      assert End(es, now) == End(es[1..], es[0].at);
      if es[0].Use? {
        assert Uses(es)[1..] == Uses(es[1..]);
      } else {
        assert Uses(es) == Uses(es[1..]);
        OrderedEarlier(Uses(es), es[0].at, now);
      }
    }
  }

  lemma OrderedEarlier(rs: seq<Request>, now: Time, earlier: Time)
    requires Ordered(rs, now) && earlier <= now
    ensures Ordered(rs, earlier)
  {
  }

  lemma {:induction false} NoneAdmitted(rs: seq<Request>, vs: seq<bool>, ip: string)
    requires |rs| == |vs| && forall i :: 0 <= i < |vs| ==> !vs[i]
    ensures Admitted(rs, vs, ip) == 0
    decreases rs
  {
    if rs != [] {
      NoneAdmitted(rs[1..], vs[1..], ip);
    }
  }

  lemma BudgetAtMost(cfg: Config, bs: Buckets, ip: string, t: Time)
    requires cfg.burst > 0
    ensures Budget(cfg, bs, ip, t) <= cfg.burst as real
  {
  }

  lemma BoundFrom(cfg: Config, s: State, bs: Buckets, es: seq<Event>, now: Time, d: real, ip: string)
    requires HarmlessWithin(cfg, d) && cfg.burst > 0 && d >= 0.0 && es != []
    requires Agreed(cfg, s, bs, now, d) && Timely(cfg, s, es, now, d)
    ensures Admitted(Uses(es), Answers(cfg, s, es), ip) as real
      <= cfg.burst as real + Refill(cfg, es[|es| - 1].at - es[0].at)
  {
    var from, end := es[0].at, es[|es| - 1].at;
    assert End(es, from) == end;
    hide *;
    TimelyFromFirst(cfg, s, es, now, d);
    UsesOrdered(cfg, s, es, from, d);
    RunAgrees(cfg, s, bs, now, d, es);
    BudgetAtMost(cfg, bs, ip, from);
    IdealAdmissionBound(cfg, bs, Uses(es), ip, from, end);
  }

  lemma BoundWhenNoneAdmitted(cfg: Config, s: State, es: seq<Event>, elapsed: real, ip: string)
    requires cfg.burst <= 0 && elapsed >= 0.0
    ensures Admitted(Uses(es), Answers(cfg, s, es), ip) as real <= Refill(cfg, elapsed)
  {
    NothingPasses(cfg, s, map[], es);
    NoneAdmitted(Uses(es), Answers(cfg, s, es), ip);
    RefillGrows(cfg, 0.0, elapsed);
  }

  lemma DelayedWithinBudget(cfg: Config, xs: seq<Event>, ys: seq<Event>, start: Time, d: real, ip: string)
    requires HarmlessWithin(cfg, d) && d >= 0.0 && Timely(cfg, START, xs + ys, start, d) && ys != []
    ensures Admitted(Uses(ys), Answers(cfg, DoAll(cfg, START, xs), ys), ip) as real
      <= Max0(cfg.burst) as real + Refill(cfg, ys[|ys| - 1].at - ys[0].at)
  {
    var s := DoAll(cfg, START, xs);
    TimelyParts(cfg, START, xs, ys, start, d);
    if cfg.burst > 0 {
      RunAgrees(cfg, START, map[], start, d, xs);
      BoundFrom(cfg, s, IdealServeAll(cfg, map[], Uses(xs)), ys, End(xs, start), d, ip);
    } else {
      TimelyFromFirst(cfg, s, ys, End(xs, start), d);
      UsesOrdered(cfg, s, ys, ys[0].at, d);
      BoundWhenNoneAdmitted(cfg, s, ys, ys[|ys| - 1].at - ys[0].at, ip);
    }
  }

  /** However requests overlap, in every window `ys` of every run one IP takes at most burst + rps * T
      tokens. */
  lemma DelayedAdmissionBound(cfg: Config, xs: seq<Event>, ys: seq<Event>, start: Time, d: real, ip: string)
    requires HarmlessWithin(cfg, d) && d >= 0.0 && Timely(cfg, START, xs + ys, start, d) && ys != []
    ensures Admitted(Uses(ys), Answers(cfg, DoAll(cfg, START, xs), ys), ip) as real
      <= Max0(cfg.burst) as real + cfg.rps as real * (ys[|ys| - 1].at - ys[0].at)
  {
    hide *;
    DelayedWithinBudget(cfg, xs, ys, start, d, ip);
    RefillIs(cfg, ys[|ys| - 1].at - ys[0].at);
  }

  lemma TimelyFromFirst(cfg: Config, s: State, es: seq<Event>, now: Time, d: real)
    requires Timely(cfg, s, es, now, d) && es != []
    ensures Timely(cfg, s, es, es[0].at, d)
  {
  }

  /** Requests that come one at a time and use their limiters without delay; the first has the number
      `first`. */
  function Alone(rs: seq<Request>, first: int): seq<Event>
    decreases rs
  {
    if rs == [] then [] else [Enter(rs[0].ip, rs[0].at), Use(first, rs[0].ip, rs[0].at)] + Alone(rs[1..], first + 1)
  }

  lemma OneAlone(cfg: Config, s: State, ip: string, at: Time, rest: seq<Event>, d: real)
    requires d >= 0.0
    ensures var enter, use := Enter(ip, at), Use(s.requests + 1, ip, at);
      var t := Do(cfg, s, enter);
      var u, es := Do(cfg, t, use), [enter, use] + rest;
      && Timely(cfg, s, es, at, d) == Timely(cfg, u, rest, at, d)
      && Uses(es) == [Request(ip, at)] + Uses(rest)
      && Answers(cfg, s, es) == [Passes(cfg, t, use)] + Answers(cfg, u, rest)
  {
    var enter, use := Enter(ip, at), Use(s.requests + 1, ip, at);
    assert ([enter, use] + rest)[1..] == [use] + rest && ([use] + rest)[1..] == rest;
  }

  lemma {:induction false} AloneIsTimely(cfg: Config, s: State, rs: seq<Request>, now: Time, d: real)
    requires Ordered(rs, now) && d >= 0.0
    ensures Timely(cfg, s, Alone(rs, s.requests + 1), now, d) && Uses(Alone(rs, s.requests + 1)) == rs
    decreases rs
  {
    if rs != [] {
      var ip, at := rs[0].ip, rs[0].at;
      var u := Do(cfg, Do(cfg, s, Enter(ip, at)), Use(s.requests + 1, ip, at));
      AloneIsTimely(cfg, u, rs[1..], at, d);
      OneAlone(cfg, s, ip, at, Alone(rs[1..], s.requests + 2), d);
      assert u.requests == s.requests + 1 && rs == [Request(ip, at)] + rs[1..];
      hide Do;
    }
  }

  /** The answers to one IP are those it gets when nobody else comes and its own requests, which take
      their tokens at the same times, do not overlap. */
  lemma OthersDoNotMatter(cfg: Config, es: seq<Event>, start: Time, d: real, ip: string)
    requires HarmlessWithin(cfg, d) && d >= 0.0 && Timely(cfg, START, es, start, d)
    ensures var fs := Alone(Only(Uses(es), ip), 1);
      && Timely(cfg, START, fs, start, d) && Uses(fs) == Only(Uses(es), ip)
      && OnlyVerdicts(Uses(es), Answers(cfg, START, es), ip) == Answers(cfg, START, fs)
  {
    UsesOrdered(cfg, START, es, start, d);
    OnlyOrdered(Uses(es), start, ip);
    var fs := Alone(Only(Uses(es), ip), 1);
    AloneIsTimely(cfg, START, Only(Uses(es), ip), start, d);
    DelaysUnobservable(cfg, es, start, d);
    DelaysUnobservable(cfg, fs, start, d);
    IdealIndependent(cfg, map[], map[], Uses(es), ip);
  }

  // ----- The condition is exact -----

  function Enters(ip: string, at: Time, n: nat): seq<Event> {
    if n == 0 then [] else [Enter(ip, at)] + Enters(ip, at, n - 1)
  }

  /** The requests with the `n` numbers from `first` on use their limiters. */
  function UsesFrom(first: int, ip: string, at: Time, n: nat): seq<Event>
    decreases n
  {
    if n == 0 then [] else [Use(first, ip, at)] + UsesFrom(first + 1, ip, at, n - 1)
  }

  lemma {:induction false} UsesJoined(xs: seq<Event>, ys: seq<Event>)
    ensures Uses(xs + ys) == Uses(xs) + Uses(ys)
  {
    if xs == [] {
      assert xs + ys == ys;
    } else {
      assert (xs + ys)[1..] == xs[1..] + ys;
      UsesJoined(xs[1..], ys);
      var first := if xs[0].Use? then [Request(xs[0].ip, xs[0].at)] else [];
      assert Uses(xs) == first + Uses(xs[1..]);
      assert Uses(xs + ys) == first + (Uses(xs[1..]) + Uses(ys));
    }
  }

  lemma {:induction false} AnswersJoined(cfg: Config, s: State, xs: seq<Event>, ys: seq<Event>)
    ensures Answers(cfg, s, xs + ys) == Answers(cfg, s, xs) + Answers(cfg, DoAll(cfg, s, xs), ys)
    ensures DoAll(cfg, s, xs + ys) == DoAll(cfg, DoAll(cfg, s, xs), ys)
    decreases xs
  {
    hide Do, Passes, Uses;
    if xs == [] {
      assert xs + ys == ys;
    } else {
      assert (xs + ys)[1..] == xs[1..] + ys;
      AnswersJoined(cfg, Do(cfg, s, xs[0]), xs[1..], ys);
    }
  }

  lemma {:induction false} NumbersKept(cfg: Config, s: State, es: seq<Event>)
    requires Numbered(s)
    ensures Numbered(DoAll(cfg, s, es))
    decreases es
  {
    if es != [] {
      EventKeepsNumbers(cfg, s, es[0]);
      NumbersKept(cfg, Do(cfg, s, es[0]), es[1..]);
    }
  }

  lemma {:induction false} EntersGather(cfg: Config, s: State, ip: string, at: Time, n: nat, now: Time, d: real)
    requires now <= at
    ensures var t := DoAll(cfg, s, Enters(ip, at, n));
      && t.requests == s.requests + n
      && (forall id :: id in s.flights && id <= s.requests ==> id in t.flights && t.flights[id] == s.flights[id])
      && (forall id :: s.requests < id <= t.requests ==>
            id in t.flights && t.flights[id].ip == ip && t.flights[id].entered == at)
    ensures Timely(cfg, s, Enters(ip, at, n), now, d) && Uses(Enters(ip, at, n)) == []
    ensures |Enters(ip, at, n)| == n && forall e :: e in Enters(ip, at, n) ==> e.at == at
    decreases n
  {
    if n > 0 {
      assert Enters(ip, at, n)[1..] == Enters(ip, at, n - 1);
      EntersGather(cfg, Do(cfg, s, Enter(ip, at)), ip, at, n - 1, at, d);
    }
  }

  /** After requests at time 0 nobody was seen later, and no cleanup was later. */
  predicate SeenAtZero(s: State) {
    && (forall ip :: ip in s.entries ==> s.entries[ip].lastSeen == 0.0)
    && (s.lastCleanup.Some? ==> s.lastCleanup.value == 0.0)
  }

  lemma {:induction false} EntersAtZero(cfg: Config, s: State, ip: string, n: nat)
    requires SeenAtZero(s)
    ensures SeenAtZero(DoAll(cfg, s, Enters(ip, 0.0, n)))
    decreases n
  {
    if n > 0 {
      assert Enters(ip, 0.0, n)[1..] == Enters(ip, 0.0, n - 1);
      EntersAtZero(cfg, Do(cfg, s, Enter(ip, 0.0)), ip, n - 1);
    }
  }

  lemma {:induction false} UsesKeep(cfg: Config, s: State, first: int, ip: string, at: Time, n: nat)
    ensures var t := DoAll(cfg, s, UsesFrom(first, ip, at, n));
      t.entries == s.entries && t.requests == s.requests && t.lastCleanup == s.lastCleanup
    ensures Uses(UsesFrom(first, ip, at, n)) == Repeat(ip, at, n)
    ensures |UsesFrom(first, ip, at, n)| == n && forall e :: e in UsesFrom(first, ip, at, n) ==> e.at == at
    decreases n
  {
    if n > 0 {
      var es := UsesFrom(first, ip, at, n);
      assert es[1..] == UsesFrom(first + 1, ip, at, n - 1);
      UsesKeep(cfg, Do(cfg, s, es[0]), first + 1, ip, at, n - 1);
    }
  }

  lemma {:induction false} UsesLand(cfg: Config, s: State, first: int, ip: string, at: Time, n: nat, now: Time, d: real)
    requires now <= at
    requires forall id :: first <= id < first + n ==>
      id in s.flights && s.flights[id].ip == ip && at <= s.flights[id].entered + d
    ensures Timely(cfg, s, UsesFrom(first, ip, at, n), now, d)
    decreases n
  {
    if n > 0 {
      var es := UsesFrom(first, ip, at, n);
      assert es[1..] == UsesFrom(first + 1, ip, at, n - 1);
      UsesLand(cfg, Do(cfg, s, es[0]), first + 1, ip, at, n - 1, at, d);
    }
  }

  /** Enough requests of another IP to reach a cleanup evict an idle one. */
  lemma {:induction false} OthersEvict(cfg: Config, s: State, ip: string, other: string, at: Time, n: nat)
    requires cfg.cleanupEvery > 0 && cfg.cleanupAfter > 0.0 && ip != other
    requires ip in s.entries ==>
      && Idle(cfg, s.entries[ip], at)
      && (s.lastCleanup.Some? ==> at - s.lastCleanup.value >= cfg.cleanupAfter)
      && s.requests % cfg.cleanupEvery + n >= cfg.cleanupEvery
    ensures ip !in DoAll(cfg, s, Enters(other, at, n)).entries
    decreases n
  {
    if n > 0 {
      assert Enters(other, at, n)[1..] == Enters(other, at, n - 1);
      NextRemainder(s.requests, cfg.cleanupEvery);
      OthersEvict(cfg, Do(cfg, s, Enter(other, at)), ip, other, at, n - 1);
    }
  }

  /** The limiter that a request at `at` gets has `n` tokens for it. */
  predicate Supplied(cfg: Config, s: State, ip: string, at: Time, n: nat) {
    cfg.burst >= n
    && (ip in s.entries ==>
          && s.entries[ip].lastSeen == at
          && s.entries[ip].limiter in s.buckets
          && Level(cfg, s.buckets[s.entries[ip].limiter], at) >= n as real)
  }

  lemma OnePasses(cfg: Config, s: State, ip: string, at: Time, n: nat)
    requires Numbered(s) && Supplied(cfg, s, ip, at, n) && n > 0
    ensures var t, use := Do(cfg, s, Enter(ip, at)), Use(s.requests + 1, ip, at);
      && Passes(cfg, t, use)
      && Numbered(Do(cfg, t, use)) && Supplied(cfg, Do(cfg, t, use), ip, at, n - 1)
      && Do(cfg, t, use).requests == s.requests + 1
  {
    EventKeepsNumbers(cfg, s, Enter(ip, at));
    EventKeepsNumbers(cfg, Do(cfg, s, Enter(ip, at)), Use(s.requests + 1, ip, at));
    hide Numbered;
  }

  /** Requests at one time are all admitted when the limiter that they get has the tokens. */
  lemma {:induction false} AllPass(cfg: Config, s: State, ip: string, at: Time, n: nat, d: real)
    requires Numbered(s) && Supplied(cfg, s, ip, at, n) && d >= 0.0
    ensures var es := Alone(Repeat(ip, at, n), s.requests + 1);
      && Timely(cfg, s, es, at, d)
      && Uses(es) == Repeat(ip, at, n)
      && forall v :: v in Answers(cfg, s, es) ==> v
    decreases n
  {
    if n > 0 {
      var t := Do(cfg, s, Enter(ip, at));
      var u := Do(cfg, t, Use(s.requests + 1, ip, at));
      OnePasses(cfg, s, ip, at, n);
      AllPass(cfg, u, ip, at, n - 1, d);
      assert Repeat(ip, at, n)[1..] == Repeat(ip, at, n - 1);
      OneAlone(cfg, s, ip, at, Alone(Repeat(ip, at, n - 1), s.requests + 2), d);
      hide Timely, Answers, Uses, Numbered, Supplied, Do;
    }
  }

  /** Times for the run below: the first tokens go at `used`, the last ones at `again`. */
  lemma EarlyTimes(cfg: Config, d: real) returns (used: Time, again: Time)
    requires !HarmlessWithin(cfg, d) && d >= 0.0
    ensures cfg.burst > 0 && cfg.cleanupEvery > 0 && cfg.cleanupAfter > 0.0
    ensures 0.0 <= used <= d && used <= cfg.cleanupAfter < again && Refill(cfg, again - used) < cfg.burst as real
  {
    used := Min(d, cfg.cleanupAfter);
    if cfg.rps == 0 {
      again := cfg.cleanupAfter + 1.0;
    } else {
      var rps, burst := cfg.rps as real, cfg.burst as real;
      again := used + (cfg.cleanupAfter - used + burst / rps) / 2.0;
      assert rps * (burst / rps) == burst;
      Quotient(rps, cfg.cleanupAfter - used, burst);
      assert rps * (again - used) == (rps * (cfg.cleanupAfter - used) + burst) / 2.0;
    }
  }

  lemma Quotient(a: real, x: real, b: real)
    requires a > 0.0 && a * x < b
    ensures x < b / a
  {
    assert a * (b / a - x) > 0.0;
  }

  /** The first half of the run below: `burst` requests enter, and are used late. */
  function LateDrain(cfg: Config, used: Time, ip: string): seq<Event>
    requires cfg.burst > 0
  {
    Enters(ip, 0.0, cfg.burst) + UsesFrom(1, ip, used, cfg.burst)
  }

  lemma DrainsLate(cfg: Config, used: Time, d: real, ip: string)
    requires cfg.burst > 0 && 0.0 <= used <= d
    ensures var s, es := DoAll(cfg, START, LateDrain(cfg, used, ip)), LateDrain(cfg, used, ip);
      && Timely(cfg, START, es, 0.0, d) && Uses(es) == Repeat(ip, used, cfg.burst) && End(es, 0.0) == used
      && s.requests == cfg.burst && SeenAtZero(s) && Numbered(s)
  {
    var enter, drain := Enters(ip, 0.0, cfg.burst), UsesFrom(1, ip, used, cfg.burst);
    var s := DoAll(cfg, START, enter);
    EntersGather(cfg, START, ip, 0.0, cfg.burst, 0.0, d);
    EntersAtZero(cfg, START, ip, cfg.burst);
    UsesLand(cfg, s, 1, ip, used, cfg.burst, 0.0, d);
    UsesKeep(cfg, s, 1, ip, used, cfg.burst);
    NumbersKept(cfg, START, enter + drain);
    UsesJoined(enter, drain);
    AnswersJoined(cfg, START, enter, drain);
    TimelyParts(cfg, START, enter, drain, 0.0, d);
  }

  /** The second half: requests of another IP bring a cleanup, and then the burst comes again. */
  function FillAndRepeat(cfg: Config, again: Time, ip: string, other: string): seq<Event>
    requires cfg.burst > 0 && cfg.cleanupEvery > 0
  {
    Enters(other, again, cfg.cleanupEvery) + Alone(Repeat(ip, again, cfg.burst), cfg.burst + cfg.cleanupEvery + 1)
  }

  lemma ForgetsAndAdmits(cfg: Config, s: State, used: Time, again: Time, d: real, ip: string, other: string)
    requires cfg.burst > 0 && cfg.cleanupEvery > 0 && 0.0 < cfg.cleanupAfter < again && d >= 0.0 && ip != other
    requires s.requests == cfg.burst && SeenAtZero(s) && Numbered(s) && used <= again
    ensures var es := FillAndRepeat(cfg, again, ip, other);
      && Timely(cfg, s, es, used, d) && Uses(es) == Repeat(ip, again, cfg.burst)
      && forall v :: v in Answers(cfg, s, es) ==> v
  {
    hide DoAll, Timely, Uses, Enters, Alone, Answers, Repeat;
    var fill := Enters(other, again, cfg.cleanupEvery);
    var more := Alone(Repeat(ip, again, cfg.burst), cfg.burst + cfg.cleanupEvery + 1);
    EntersGather(cfg, s, other, again, cfg.cleanupEvery, used, d);
    OthersEvict(cfg, s, ip, other, again, cfg.cleanupEvery);
    NumbersKept(cfg, s, fill);
    AllPass(cfg, DoAll(cfg, s, fill), ip, again, cfg.burst, d);
    UsesJoined(fill, more);
    AnswersJoined(cfg, s, fill, more);
    TimelyParts(cfg, s, fill, more, used, d);
  }

  /** Enter `burst` requests, use them as late as the delay allows, let others trigger a cleanup that
      goes by when they entered and not by when they took tokens, and ask again. */
  lemma ObservableWithin(cfg: Config, d: real) returns (es: seq<Event>)
    requires !HarmlessWithin(cfg, d) && d >= 0.0
    ensures Timely(cfg, START, es, 0.0, d) && Answers(cfg, START, es) != IdealVerdicts(cfg, map[], Uses(es))
  {
    var used, again := EarlyTimes(cfg, d);
    var ip, other := "a", "b";
    assert ip[0] != other[0];
    var xs, ys := LateDrain(cfg, used, ip), FillAndRepeat(cfg, again, ip, other);
    es := xs + ys;
    DrainsLate(cfg, used, d, ip);
    ForgetsAndAdmits(cfg, DoAll(cfg, START, xs), used, again, d, ip, other);
    TimelyParts(cfg, START, xs, ys, 0.0, d);
    HalvesDiffer(cfg, xs, ys, ip, used, again);
  }

  lemma HalvesDiffer(cfg: Config, xs: seq<Event>, ys: seq<Event>, ip: string, used: Time, again: Time)
    requires cfg.burst > 0 && used <= again && Refill(cfg, again - used) < cfg.burst as real
    requires Uses(xs) == Repeat(ip, used, cfg.burst) && Uses(ys) == Repeat(ip, again, cfg.burst)
    requires forall v :: v in Answers(cfg, DoAll(cfg, START, xs), ys) ==> v
    ensures Answers(cfg, START, xs + ys) != IdealVerdicts(cfg, map[], Uses(xs + ys))
  {
    var bs := IdealServeAll(cfg, map[], Uses(xs));
    IdealDrains(cfg, map[], ip, used, cfg.burst);
    IdealRefuses(cfg, bs, ip, again, cfg.burst);
    IdealSplits(cfg, map[], Uses(xs), Uses(ys));
    UsesJoined(xs, ys);
    AnswersJoined(cfg, START, xs, ys);
    OtherTail(Answers(cfg, START, xs), Answers(cfg, DoAll(cfg, START, xs), ys),
              IdealVerdicts(cfg, map[], Uses(xs)), IdealVerdicts(cfg, bs, Uses(ys)));
  }

  lemma OtherTail(a: seq<bool>, b: seq<bool>, x: seq<bool>, y: seq<bool>)
    requires |a| == |x| && b != y
    ensures a + b != x + y
  {
    assert (a + b)[|a|..] == b && (x + y)[|a|..] == y;
  }

  ghost predicate UnobservedWithin(cfg: Config, es: seq<Event>, start: Time, d: real) {
    Timely(cfg, START, es, start, d) ==> Answers(cfg, START, es) == IdealVerdicts(cfg, map[], Uses(es))
  }

  lemma UnobservedIffHarmlessWithin(cfg: Config, d: real)
    requires d >= 0.0
    ensures HarmlessWithin(cfg, d) <==> forall es: seq<Event>, start: Time :: UnobservedWithin(cfg, es, start, d)
  {
    if HarmlessWithin(cfg, d) {
      forall es: seq<Event>, start: Time | Timely(cfg, START, es, start, d)
        ensures UnobservedWithin(cfg, es, start, d)
      {
        DelaysUnobservable(cfg, es, start, d);
      }
    } else {
      var es := ObservableWithin(cfg, d);
      assert !UnobservedWithin(cfg, es, 0.0, d);
    }
  }

  /** Eviction stays unobservable, however requests overlap within the delay, exactly when a bucket refills
      within the idle limit less the delay. */
  lemma DelayedEvictionExact(cfg: Config, d: real)
    requires d >= 0.0
    ensures
      || cfg.cleanupEvery <= 0 || cfg.cleanupAfter <= 0.0 || cfg.burst <= 0
      || cfg.burst as real <= cfg.rps as real * (cfg.cleanupAfter - d)
      <==> forall es: seq<Event>, start: Time :: UnobservedWithin(cfg, es, start, d)
  {
    hide UnobservedWithin, Refill;
    UnobservedIffHarmlessWithin(cfg, d);
    RefillIs(cfg, cfg.cleanupAfter - d);
  }
}
