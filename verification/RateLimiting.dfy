/**
 The per-IP rate limiter: token buckets in a map from which idle entries are evicted, against the
 limiter that never evicts.
 */
module RateLimiting {
  import opened Options

  /** Seconds. */
  type Time = real

  /** Eviction is off when `cleanupEvery` or `cleanupAfter` is not positive. */
  datatype Config = Config(rps: nat, burst: int, cleanupAfter: real, cleanupEvery: int)

  datatype Bucket = Bucket(tokens: real, last: Time)

  function Min(a: real, b: real): real { if a < b then a else b }

  function Refill(cfg: Config, elapsed: real): real {
    cfg.rps as real * elapsed
  }

  /** The tokens of a bucket at `t`; a clock that went back refills nothing. */
  function Level(cfg: Config, b: Bucket, t: Time): real {
    Min(cfg.burst as real, b.tokens + (if t > b.last then Refill(cfg, t - b.last) else 0.0))
  }

  function Fresh(cfg: Config, t: Time): Bucket {
    Bucket(cfg.burst as real, t)
  }

  /** A request takes one token; a refused request changes nothing. */
  function Take(cfg: Config, b: Bucket, t: Time): Bucket {
    if Level(cfg, b, t) >= 1.0 then Bucket(Level(cfg, b, t) - 1.0, t) else b
  }

  datatype Entry<L> = Entry(limiter: L, lastSeen: Time)
  type Entries = map<string, Entry<Bucket>>
  datatype Cache = Cache(entries: Entries, requests: int, lastCleanup: Option<Time>)

  predicate Idle<L>(cfg: Config, entry: Entry<L>, now: Time) {
    now - entry.lastSeen > cfg.cleanupAfter
  }

  function Evicted<L>(cfg: Config, entries: map<string, Entry<L>>, now: Time): map<string, Entry<L>> {
    map ip | ip in entries && !Idle(cfg, entries[ip], now) :: entries[ip]
  }

  /** Whether the request that makes the count `requests` cleans up. */
  predicate CleansUp(cfg: Config, requests: int, lastCleanup: Option<Time>, now: Time) {
    && cfg.cleanupEvery > 0 && requests % cfg.cleanupEvery == 0
    && cfg.cleanupAfter > 0.0
    && (lastCleanup.Some? ==> now - lastCleanup.value >= cfg.cleanupAfter)
  }

  function Cleaned(cfg: Config, c: Cache, now: Time): Cache {
    if CleansUp(cfg, c.requests + 1, c.lastCleanup, now)
    then Cache(Evicted(cfg, c.entries, now), c.requests + 1, Some(now))
    else c.(requests := c.requests + 1)
  }

  function BucketOf(cfg: Config, entries: Entries, ip: string, now: Time): Bucket {
    if ip in entries then entries[ip].limiter else Fresh(cfg, now)
  }

  datatype Request = Request(ip: string, at: Time)

  /** The cache after one request, whose bucket reads the clock later than the cache does; `AdmitsAt`
      says what it answered. */
  function ServeAt(cfg: Config, c: Cache, r: Request, used: Time): Cache {
    var cleaned := Cleaned(cfg, c, r.at);
    var limiter := Take(cfg, BucketOf(cfg, cleaned.entries, r.ip, r.at), used);
    cleaned.(entries := cleaned.entries[r.ip := Entry(limiter, r.at)])
  }

  predicate AdmitsAt(cfg: Config, c: Cache, r: Request, used: Time) {
    Level(cfg, BucketOf(cfg, Cleaned(cfg, c, r.at).entries, r.ip, r.at), used) >= 1.0
  }

  /** Requests that take no time; RateLimiterDelays has those that do. */
  function Serve(cfg: Config, c: Cache, r: Request): Cache {
    ServeAt(cfg, c, r, r.at)
  }

  predicate Admits(cfg: Config, c: Cache, r: Request) {
    AdmitsAt(cfg, c, r, r.at)
  }

  class RateLimiter {
    const cfg: Config
    var limiters: Entries
    var requests: int
    var lastCleanup: Option<Time>

    ghost function State(): Cache
      reads this
    {
      Cache(limiters, requests, lastCleanup)
    }

    constructor (rps: nat, burst: int)
      ensures cfg == Config(rps, burst, 600.0, 256) && State() == EMPTY
    {
      cfg := Config(rps, burst, 600.0, 256);
      limiters, requests, lastCleanup := map[], 0, None;
    }

    method CleanupExpiredLocked(now: Time)
      modifies `limiters, `lastCleanup
      ensures var due := cfg.cleanupAfter > 0.0
          && (old(lastCleanup).Some? ==> now - old(lastCleanup).value >= cfg.cleanupAfter);
        && (due ==>
              && lastCleanup == Some(now)
              && (forall ip :: ip in limiters <==>
                    ip in old(limiters) && now - old(limiters)[ip].lastSeen <= cfg.cleanupAfter)
              && (forall ip :: ip in limiters ==> limiters[ip] == old(limiters)[ip]))
        && (!due ==> limiters == old(limiters) && lastCleanup == old(lastCleanup))
    {
      if cfg.cleanupAfter <= 0.0 {
        return;
      }
      if lastCleanup.Some? && now - lastCleanup.value < cfg.cleanupAfter {
        return;
      }
      var left := limiters.Keys;
      while left != {}
        invariant left <= old(limiters).Keys
        invariant limiters == map ip | ip in old(limiters) && (ip in left || !Idle(cfg, old(limiters)[ip], now))
                                :: old(limiters)[ip]
        decreases left
      {
        var ip :| ip in left;
        if now - limiters[ip].lastSeen > cfg.cleanupAfter {
          limiters := limiters - {ip};
        }
        left := left - {ip};
      }
      lastCleanup := Some(now);
    }

    method GetLimiter(ip: string, now: Time) returns (limiter: Bucket)
      modifies this
      ensures var cleaned := Cleaned(cfg, old(State()), now);
        && limiter == BucketOf(cfg, cleaned.entries, ip, now)
        && State() == cleaned.(entries := cleaned.entries[ip := Entry(limiter, now)])
      ensures requests == old(requests) + 1
      ensures cfg.cleanupEvery <= 0 || requests % cfg.cleanupEvery != 0 ==>
        lastCleanup == old(lastCleanup) && limiters == old(limiters)[ip := Entry(limiter, now)]
      ensures ip in limiters && limiters[ip].lastSeen == now
    {
      requests := requests + 1;
      if cfg.cleanupEvery > 0 && requests % cfg.cleanupEvery == 0 {
        CleanupExpiredLocked(now);
      }
      if ip !in limiters {
        limiter := Fresh(cfg, now);
      } else {
        limiter := limiters[ip].limiter;
      }
      limiters := limiters[ip := Entry(limiter, now)];
    }

    /** `now` and `used`: what the clock says under the lock, and what it says to the bucket. */
    method Allow(ip: string, now: Time, used: Time) returns (ok: bool)
      modifies this
      ensures ok == AdmitsAt(cfg, old(State()), Request(ip, now), used)
      ensures State() == ServeAt(cfg, old(State()), Request(ip, now), used)
    {
      var limiter := GetLimiter(ip, now);
      ok := Level(cfg, limiter, used) >= 1.0;
      limiters := limiters[ip := Entry(Take(cfg, limiter, used), now)];
    }
  }

  const EMPTY := Cache(map[], 0, None)

  // ----- Runs -----

  function Verdicts(cfg: Config, c: Cache, rs: seq<Request>): (vs: seq<bool>)
    ensures |vs| == |rs|
    decreases rs
  {
    if rs == [] then [] else [Admits(cfg, c, rs[0])] + Verdicts(cfg, Serve(cfg, c, rs[0]), rs[1..])
  }

  function ServeAll(cfg: Config, c: Cache, rs: seq<Request>): Cache
    decreases rs
  {
    if rs == [] then c else ServeAll(cfg, Serve(cfg, c, rs[0]), rs[1..])
  }

  /** The limiter that never evicts. */
  type Buckets = map<string, Bucket>

  function Ideal<K>(cfg: Config, bs: map<K, Bucket>, key: K, t: Time): Bucket {
    if key in bs then bs[key] else Fresh(cfg, t)
  }

  function IdealServe(cfg: Config, bs: Buckets, r: Request): Buckets {
    bs[r.ip := Take(cfg, Ideal(cfg, bs, r.ip, r.at), r.at)]
  }

  predicate IdealAdmits(cfg: Config, bs: Buckets, r: Request) {
    Level(cfg, Ideal(cfg, bs, r.ip, r.at), r.at) >= 1.0
  }

  function IdealVerdicts(cfg: Config, bs: Buckets, rs: seq<Request>): (vs: seq<bool>)
    ensures |vs| == |rs|
    decreases rs
  {
    if rs == [] then [] else [IdealAdmits(cfg, bs, rs[0])] + IdealVerdicts(cfg, IdealServe(cfg, bs, rs[0]), rs[1..])
  }

  function IdealServeAll(cfg: Config, bs: Buckets, rs: seq<Request>): Buckets
    decreases rs
  {
    if rs == [] then bs else IdealServeAll(cfg, IdealServe(cfg, bs, rs[0]), rs[1..])
  }

  /** Times that never go back, from `now` on. */
  predicate Ordered(rs: seq<Request>, now: Time) {
    rs == [] || (now <= rs[0].at && Ordered(rs[1..], rs[0].at))
  }

  // ----- When an entry is evicted -----

  lemma {:induction false} RequestsCounted(cfg: Config, c: Cache, rs: seq<Request>)
    ensures ServeAll(cfg, c, rs).requests == c.requests + |rs|
    decreases rs
  {
    if rs != [] {
      RequestsCounted(cfg, Serve(cfg, c, rs[0]), rs[1..]);
    }
  }

  lemma {:induction false} ServesOneMore(cfg: Config, c: Cache, rs: seq<Request>, k: nat)
    requires k < |rs|
    ensures ServeAll(cfg, c, rs[..k + 1]) == Serve(cfg, ServeAll(cfg, c, rs[..k]), rs[k])
    decreases k
  {
    if k == 0 {
      assert rs[..1][1..] == [];
    } else {
      ServesOneMore(cfg, Serve(cfg, c, rs[0]), rs[1..], k - 1);
      assert rs[..k + 1][1..] == rs[1..][..k] && rs[..k][1..] == rs[1..][..k - 1];
    }
  }

  /** The time an entry was last seen is the time of the last request of its IP. */
  lemma {:induction false} SeenAtLastRequest(cfg: Config, rs: seq<Request>, k: nat, ip: string) returns (m: nat)
    requires k <= |rs| && ip in ServeAll(cfg, EMPTY, rs[..k]).entries
    ensures m < k && rs[m].ip == ip && rs[m].at == ServeAll(cfg, EMPTY, rs[..k]).entries[ip].lastSeen
    ensures forall l :: m < l < k ==> rs[l].ip != ip
    decreases k
  {
    assert k > 0 by {
      assert rs[..0] == [];
    }
    ServesOneMore(cfg, EMPTY, rs, k - 1);
    if rs[k - 1].ip == ip {
      m := k - 1;
    } else {
      m := SeenAtLastRequest(cfg, rs, k - 1, ip);
    }
  }

  /** In every run the entry of another IP goes with the k-th request exactly when cleanups are on, k is a
      multiple of cleanupEvery, the last cleanup is long enough ago, and so is the IP's last request. */
  lemma EvictedExactly(cfg: Config, rs: seq<Request>, k: nat, ip: string)
    requires k < |rs| && rs[k].ip != ip && ip in ServeAll(cfg, EMPTY, rs[..k]).entries
    ensures var c, d := ServeAll(cfg, EMPTY, rs[..k]), ServeAll(cfg, EMPTY, rs[..k + 1]);
      && (ip !in d.entries <==>
            && cfg.cleanupEvery > 0 && (k + 1) % cfg.cleanupEvery == 0 && cfg.cleanupAfter > 0.0
            && rs[k].at - c.entries[ip].lastSeen > cfg.cleanupAfter
            && (c.lastCleanup.Some? ==> rs[k].at - c.lastCleanup.value >= cfg.cleanupAfter))
      && (ip !in d.entries ==> d.lastCleanup == Some(rs[k].at))
      && (ip in d.entries ==> d.entries[ip] == c.entries[ip])
  {
    RequestsCounted(cfg, EMPTY, rs[..k]);
    ServesOneMore(cfg, EMPTY, rs, k);
  }

  // ----- Eviction is unobservable -----

  /** A bucket that has been idle for more than cleanupAfter is full again. */
  predicate Harmless(cfg: Config) {
    cfg.cleanupEvery <= 0 || cfg.cleanupAfter <= 0.0 || cfg.burst as real <= Refill(cfg, cfg.cleanupAfter)
  }

  predicate Full(cfg: Config, b: Bucket, now: Time) {
    b.last <= now && b.tokens + Refill(cfg, now - b.last) >= cfg.burst as real
  }

  predicate Alike(cfg: Config, a: Bucket, b: Bucket, now: Time) {
    a == b || (Full(cfg, a, now) && Full(cfg, b, now))
  }

  /** The two limiters agree on every IP: on its bucket, or on the bucket being full. */
  ghost predicate Agree(cfg: Config, c: Cache, bs: Buckets, now: Time) {
    && (forall ip :: ip in c.entries ==>
          ip in bs && Alike(cfg, c.entries[ip].limiter, bs[ip], now)
          && bs[ip].last <= c.entries[ip].lastSeen <= now)
    && (forall ip :: ip in bs ==> bs[ip].tokens >= Min(0.0, cfg.burst as real) && bs[ip].last <= now)
    && (forall ip :: ip in bs && ip !in c.entries ==> Full(cfg, bs[ip], now))
  }

  lemma RefillGrows(cfg: Config, a: real, b: real)
    requires a <= b
    ensures Refill(cfg, a) <= Refill(cfg, b)
    ensures Refill(cfg, b) == Refill(cfg, a) + Refill(cfg, b - a)
  {
  }

  lemma FullStays(cfg: Config, b: Bucket, now: Time, later: Time)
    requires Full(cfg, b, now) && now <= later
    ensures Full(cfg, b, later)
  {
    RefillGrows(cfg, now - b.last, later - b.last);
  }

  lemma FullLevel(cfg: Config, b: Bucket, now: Time)
    requires Full(cfg, b, now)
    ensures Level(cfg, b, now) == cfg.burst as real
  {
  }

  lemma CleaningAgrees(cfg: Config, c: Cache, bs: Buckets, now: Time, later: Time)
    requires Harmless(cfg) && Agree(cfg, c, bs, now) && now <= later
    ensures Agree(cfg, Cleaned(cfg, c, later), bs, later)
  {
    var d := Cleaned(cfg, c, later);
    forall ip | ip in bs && ip !in d.entries
      ensures Full(cfg, bs[ip], later)
    {
      if ip !in c.entries {
        FullStays(cfg, bs[ip], now, later);
      } else {
        assert later - c.entries[ip].lastSeen > cfg.cleanupAfter;
        RefillGrows(cfg, cfg.cleanupAfter, later - bs[ip].last);
        RefillGrows(cfg, 0.0, cfg.cleanupAfter);
      }
    }
    forall ip | ip in d.entries
      ensures Alike(cfg, d.entries[ip].limiter, bs[ip], later)
    {
      if Full(cfg, d.entries[ip].limiter, now) && Full(cfg, bs[ip], now) {
        FullStays(cfg, d.entries[ip].limiter, now, later);
        FullStays(cfg, bs[ip], now, later);
      }
    }
  }

  lemma ServingAgrees(cfg: Config, c: Cache, bs: Buckets, now: Time, r: Request)
    requires Harmless(cfg) && Agree(cfg, c, bs, now) && now <= r.at
    ensures Admits(cfg, c, r) == IdealAdmits(cfg, bs, r)
    ensures Agree(cfg, Serve(cfg, c, r), IdealServe(cfg, bs, r), r.at)
  {
    CleaningAgrees(cfg, c, bs, now, r.at);
    var a := BucketOf(cfg, Cleaned(cfg, c, r.at).entries, r.ip, r.at);
    var b := Ideal(cfg, bs, r.ip, r.at);
    if a != b {
      FullLevel(cfg, a, r.at);
      FullLevel(cfg, b, r.at);
    }
  }

  /** Whatever the requests, as long as time does not go back, the limiter with eviction answers
      as the one without. */
  lemma {:induction false} EvictionUnobservable(cfg: Config, c: Cache, bs: Buckets, now: Time, rs: seq<Request>)
    requires Harmless(cfg) && Agree(cfg, c, bs, now) && Ordered(rs, now)
    ensures Verdicts(cfg, c, rs) == IdealVerdicts(cfg, bs, rs)
    decreases rs
  {
    if rs != [] {
      ServingAgrees(cfg, c, bs, now, rs[0]);
      EvictionUnobservable(cfg, Serve(cfg, c, rs[0]), IdealServe(cfg, bs, rs[0]), rs[0].at, rs[1..]);
    }
  }

  // ----- How much one IP gets, and what the others do to it -----

  function Admitted(rs: seq<Request>, vs: seq<bool>, ip: string): nat
    requires |rs| == |vs|
  {
    if rs == [] then 0
    else (if rs[0].ip == ip && vs[0] then 1 else 0) + Admitted(rs[1..], vs[1..], ip)
  }

  function Max0(n: int): int { if n < 0 then 0 else n }

  /** What the tokens of `ip` at `t` allow, 0 when the burst is negative. */
  function Budget(cfg: Config, bs: Buckets, ip: string, t: Time): real {
    var level := Level(cfg, Ideal(cfg, bs, ip, t), t);
    if level < 0.0 then 0.0 else level
  }

  lemma BudgetGrows(cfg: Config, bs: Buckets, ip: string, t: Time, later: Time)
    requires t <= later
    ensures Budget(cfg, bs, ip, later) <= Budget(cfg, bs, ip, t) + Refill(cfg, later - t)
  {
    RefillGrows(cfg, 0.0, later - t);
    if ip in bs {
      var b := bs[ip];
      if later > b.last {
        var from := if t > b.last then t else b.last;
        RefillGrows(cfg, from - b.last, later - b.last);
        RefillGrows(cfg, later - from, later - t);
      }
    }
  }

  lemma BudgetSpent(cfg: Config, bs: Buckets, r: Request, ip: string)
    ensures Budget(cfg, IdealServe(cfg, bs, r), ip, r.at)
      + (if r.ip == ip && IdealAdmits(cfg, bs, r) then 1.0 else 0.0) <= Budget(cfg, bs, ip, r.at)
  {
  }

  lemma {:induction false} IdealAdmissionBound(cfg: Config, bs: Buckets, rs: seq<Request>, ip: string,
                                               start: Time, end: Time)
    requires Ordered(rs, start) && (rs == [] || rs[|rs| - 1].at <= end) && start <= end
    ensures Admitted(rs, IdealVerdicts(cfg, bs, rs), ip) as real
      <= Budget(cfg, bs, ip, start) + Refill(cfg, end - start)
    decreases rs
  {
    if rs == [] {
      RefillGrows(cfg, 0.0, end - start);
    } else {
      var r := rs[0];
      OrderedEnd(rs, start);
      BudgetGrows(cfg, bs, ip, start, r.at);
      BudgetSpent(cfg, bs, r, ip);
      IdealAdmissionBound(cfg, IdealServe(cfg, bs, r), rs[1..], ip, r.at, end);
      RefillGrows(cfg, r.at - start, end - start);
    }
  }

  lemma {:induction false} OrderedEnd(rs: seq<Request>, now: Time)
    requires Ordered(rs, now) && rs != []
    ensures now <= rs[0].at <= rs[|rs| - 1].at
    ensures Ordered(rs[1..], rs[0].at)
    decreases rs
  {
    if |rs| > 1 {
      OrderedEnd(rs[1..], rs[0].at);
    }
  }

  lemma {:induction false} CacheSplits(cfg: Config, c: Cache, xs: seq<Request>, ys: seq<Request>)
    ensures Verdicts(cfg, c, xs + ys) == Verdicts(cfg, c, xs) + Verdicts(cfg, ServeAll(cfg, c, xs), ys)
    ensures ServeAll(cfg, c, xs + ys) == ServeAll(cfg, ServeAll(cfg, c, xs), ys)
    decreases xs
  {
    if xs == [] {
      assert xs + ys == ys;
    } else {
      assert (xs + ys)[1..] == xs[1..] + ys;
      CacheSplits(cfg, Serve(cfg, c, xs[0]), xs[1..], ys);
    }
  }

  lemma {:induction false} OrderedSplit(xs: seq<Request>, ys: seq<Request>, now: Time)
    requires Ordered(xs + ys, now)
    ensures Ordered(xs, now) && Ordered(ys, if xs == [] then now else xs[|xs| - 1].at)
    decreases xs
  {
    if xs == [] {
      assert xs + ys == ys;
    } else {
      assert (xs + ys)[1..] == xs[1..] + ys;
      OrderedSplit(xs[1..], ys, xs[0].at);
    }
  }

  lemma {:induction false} AgreeAfter(cfg: Config, c: Cache, bs: Buckets, now: Time, rs: seq<Request>)
    requires Harmless(cfg) && Agree(cfg, c, bs, now) && Ordered(rs, now)
    ensures Agree(cfg, ServeAll(cfg, c, rs), IdealServeAll(cfg, bs, rs), if rs == [] then now else rs[|rs| - 1].at)
    decreases rs
  {
    if rs != [] {
      ServingAgrees(cfg, c, bs, now, rs[0]);
      AgreeAfter(cfg, Serve(cfg, c, rs[0]), IdealServe(cfg, bs, rs[0]), rs[0].at, rs[1..]);
    }
  }

  lemma Cut(rs: seq<Request>, i: nat, j: nat)
    requires i <= j <= |rs|
    ensures rs == rs[..i] + rs[i..] && rs[i..] == rs[i..j] + rs[j..]
  {
  }

  lemma WindowVerdicts(cfg: Config, rs: seq<Request>, i: nat, j: nat)
    requires i <= j <= |rs|
    ensures Verdicts(cfg, EMPTY, rs)[i..j] == Verdicts(cfg, ServeAll(cfg, EMPTY, rs[..i]), rs[i..j])
  {
    var before, window, after := rs[..i], rs[i..j], rs[j..];
    Cut(rs, i, j);
    CacheSplits(cfg, EMPTY, before, window + after);
    CacheSplits(cfg, ServeAll(cfg, EMPTY, before), window, after);
  }

  lemma WindowIsIdeal(cfg: Config, rs: seq<Request>, start: Time, i: nat, j: nat) returns (bs: Buckets)
    requires Harmless(cfg) && Ordered(rs, start) && i < j <= |rs|
    ensures Verdicts(cfg, EMPTY, rs)[i..j] == IdealVerdicts(cfg, bs, rs[i..j])
    ensures Ordered(rs[i..j], rs[i].at) && rs[i].at <= rs[j - 1].at
  {
    var before, window := rs[..i], rs[i..j];
    bs := IdealServeAll(cfg, map[], before);
    WindowVerdicts(cfg, rs, i, j);
    Cut(rs, i, j);
    OrderedSplit(before, rs[i..], start);
    var now := if i == 0 then start else before[i - 1].at;
    OrderedSplit(window, rs[j..], now);
    AgreeAfter(cfg, EMPTY, map[], start, before);
    EvictionUnobservable(cfg, ServeAll(cfg, EMPTY, before), bs, now, window);
    OrderedEnd(window, now);
  }

  lemma WindowWithinBudget(cfg: Config, rs: seq<Request>, start: Time, i: nat, j: nat, ip: string)
    requires Harmless(cfg) && Ordered(rs, start) && i < j <= |rs|
    ensures Admitted(rs[i..j], Verdicts(cfg, EMPTY, rs)[i..j], ip) as real
      <= Max0(cfg.burst) as real + Refill(cfg, rs[j - 1].at - rs[i].at)
  {
    var bs := WindowIsIdeal(cfg, rs, start, i, j);
    IdealAdmissionBound(cfg, bs, rs[i..j], ip, rs[i].at, rs[j - 1].at);
  }

  lemma RefillIs(cfg: Config, elapsed: real)
    ensures Refill(cfg, elapsed) == cfg.rps as real * elapsed
  {
  }

  /** In every run and every window of it, one IP is admitted at most burst + rps * T times, however
      often its entry is evicted and made again. */
  lemma AdmissionBound(cfg: Config, rs: seq<Request>, start: Time, i: nat, j: nat, ip: string)
    requires Harmless(cfg) && Ordered(rs, start) && i < j <= |rs|
    ensures Admitted(rs[i..j], Verdicts(cfg, EMPTY, rs)[i..j], ip) as real
      <= Max0(cfg.burst) as real + cfg.rps as real * (rs[j - 1].at - rs[i].at)
  {
    hide *;
    WindowWithinBudget(cfg, rs, start, i, j, ip);
    RefillIs(cfg, rs[j - 1].at - rs[i].at);
  }

  /** The requests of one IP, and the verdicts on them. */
  function Only(rs: seq<Request>, ip: string): seq<Request> {
    if rs == [] then [] else (if rs[0].ip == ip then [rs[0]] else []) + Only(rs[1..], ip)
  }

  function OnlyVerdicts(rs: seq<Request>, vs: seq<bool>, ip: string): seq<bool>
    requires |rs| == |vs|
  {
    if rs == [] then [] else (if rs[0].ip == ip then [vs[0]] else []) + OnlyVerdicts(rs[1..], vs[1..], ip)
  }

  lemma {:induction false} OnlyOrdered(rs: seq<Request>, now: Time, ip: string)
    requires Ordered(rs, now)
    ensures Ordered(Only(rs, ip), now)
    decreases rs
  {
    if rs != [] {
      OnlyOrdered(rs[1..], rs[0].at, ip);
      var rest := Only(rs[1..], ip);
      if rs[0].ip == ip {
        assert ([rs[0]] + rest)[1..] == rest;
      } else {
        assert Only(rs, ip) == rest;
      }
    }
  }

  lemma {:induction false} IdealIndependent(cfg: Config, a: Buckets, b: Buckets, rs: seq<Request>, ip: string)
    requires ip in a <==> ip in b
    requires ip in a ==> a[ip] == b[ip]
    ensures OnlyVerdicts(rs, IdealVerdicts(cfg, a, rs), ip) == IdealVerdicts(cfg, b, Only(rs, ip))
    decreases rs
  {
    if rs != [] {
      var r := rs[0];
      if r.ip == ip {
        IdealIndependent(cfg, IdealServe(cfg, a, r), IdealServe(cfg, b, r), rs[1..], ip);
        assert ([r] + Only(rs[1..], ip))[1..] == Only(rs[1..], ip);
      } else {
        IdealIndependent(cfg, IdealServe(cfg, a, r), b, rs[1..], ip);
        assert Only(rs, ip) == Only(rs[1..], ip);
      }
    }
  }

  /** The traffic of other IPs, which decides when entries are evicted, changes no verdict. */
  lemma OthersDoNotMatter(cfg: Config, rs: seq<Request>, start: Time, ip: string)
    requires Harmless(cfg) && Ordered(rs, start)
    ensures OnlyVerdicts(rs, Verdicts(cfg, EMPTY, rs), ip) == Verdicts(cfg, EMPTY, Only(rs, ip))
  {
    OnlyOrdered(rs, start, ip);
    EvictionUnobservable(cfg, EMPTY, map[], start, rs);
    EvictionUnobservable(cfg, EMPTY, map[], start, Only(rs, ip));
    IdealIndependent(cfg, map[], map[], rs, ip);
  }

  // ----- The condition is exact -----

  function Repeat(ip: string, at: Time, n: nat): seq<Request> {
    if n == 0 then [] else [Request(ip, at)] + Repeat(ip, at, n - 1)
  }

  lemma {:induction false} RepeatOrdered(ip: string, at: Time, n: nat, rs: seq<Request>)
    requires Ordered(rs, at)
    ensures Ordered(Repeat(ip, at, n) + rs, at)
  {
    if n > 0 {
      RepeatOrdered(ip, at, n - 1, rs);
      assert (Repeat(ip, at, n) + rs)[1..] == Repeat(ip, at, n - 1) + rs;
    } else {
      assert Repeat(ip, at, 0) + rs == rs;
    }
  }

  /** n requests at one time are all admitted when the cache has n tokens for them. */
  lemma {:induction false} CacheAdmits(cfg: Config, c: Cache, ip: string, at: Time, n: nat)
    requires cfg.burst >= n
    requires ip in c.entries ==> Level(cfg, c.entries[ip].limiter, at) >= n as real
    ensures forall v :: v in Verdicts(cfg, c, Repeat(ip, at, n)) ==> v
    decreases n
  {
    if n > 0 {
      var r := Request(ip, at);
      assert Repeat(ip, at, n)[1..] == Repeat(ip, at, n - 1);
      CacheAdmits(cfg, Serve(cfg, c, r), ip, at, n - 1);
    }
  }

  /** Without n tokens, some of n requests at one time is refused. */
  lemma {:induction false} IdealRefuses(cfg: Config, bs: Buckets, ip: string, at: Time, n: nat)
    requires ip in bs && Level(cfg, bs[ip], at) < n as real && n > 0
    ensures false in IdealVerdicts(cfg, bs, Repeat(ip, at, n))
    decreases n
  {
    var r := Request(ip, at);
    assert Repeat(ip, at, n)[1..] == Repeat(ip, at, n - 1);
    if IdealAdmits(cfg, bs, r) {
      IdealRefuses(cfg, IdealServe(cfg, bs, r), ip, at, n - 1);
    }
  }

  /** n requests at one time use up n tokens of a bucket that has them. */
  lemma {:induction false} IdealDrains(cfg: Config, bs: Buckets, ip: string, at: Time, n: nat)
    requires n > 0 && Level(cfg, Ideal(cfg, bs, ip, at), at) >= n as real
    ensures var b := IdealServeAll(cfg, bs, Repeat(ip, at, n));
      ip in b && b[ip] == Bucket(Level(cfg, Ideal(cfg, bs, ip, at), at) - n as real, at)
    decreases n
  {
    var r := Request(ip, at);
    assert Repeat(ip, at, n)[1..] == Repeat(ip, at, n - 1);
    if n > 1 {
      IdealDrains(cfg, IdealServe(cfg, bs, r), ip, at, n - 1);
    } else {
      assert Repeat(ip, at, 0) == [];
    }
  }

  lemma {:induction false} IdealKeeps(cfg: Config, bs: Buckets, ip: string, other: string, at: Time, n: nat)
    requires ip != other && ip in bs
    ensures var b := IdealServeAll(cfg, bs, Repeat(other, at, n)); ip in b && b[ip] == bs[ip]
    decreases n
  {
    if n > 0 {
      assert Repeat(other, at, n)[1..] == Repeat(other, at, n - 1);
      IdealKeeps(cfg, IdealServe(cfg, bs, Request(other, at)), ip, other, at, n - 1);
    }
  }

  /** After requests at time 0 nobody was seen later, and no cleanup was later. */
  predicate AllAtZero(c: Cache) {
    && (forall ip :: ip in c.entries ==> c.entries[ip].lastSeen == 0.0)
    && (c.lastCleanup.Some? ==> c.lastCleanup.value == 0.0)
  }

  lemma {:induction false} StaysAtZero(cfg: Config, c: Cache, ip: string, n: nat)
    requires AllAtZero(c)
    ensures AllAtZero(ServeAll(cfg, c, Repeat(ip, 0.0, n)))
    decreases n
  {
    if n > 0 {
      assert Repeat(ip, 0.0, n)[1..] == Repeat(ip, 0.0, n - 1);
      StaysAtZero(cfg, Serve(cfg, c, Request(ip, 0.0)), ip, n - 1);
    }
  }

  /** Requests of another IP, enough of them to reach a cleanup, evict an idle one. */
  lemma {:induction false} FillersEvict(cfg: Config, c: Cache, ip: string, other: string, at: Time, n: nat)
    requires cfg.cleanupEvery > 0 && cfg.cleanupAfter > 0.0 && ip != other
    requires ip in c.entries ==>
      && Idle(cfg, c.entries[ip], at)
      && (c.lastCleanup.Some? ==> at - c.lastCleanup.value >= cfg.cleanupAfter)
      && c.requests % cfg.cleanupEvery + n >= cfg.cleanupEvery
    ensures ip !in ServeAll(cfg, c, Repeat(other, at, n)).entries
    decreases n
  {
    if n > 0 {
      assert Repeat(other, at, n)[1..] == Repeat(other, at, n - 1);
      NextRemainder(c.requests, cfg.cleanupEvery);
      FillersEvict(cfg, Serve(cfg, c, Request(other, at)), ip, other, at, n - 1);
    }
  }

  lemma NextRemainder(a: int, m: int)
    requires m > 0
    ensures (a + 1) % m == if a % m + 1 == m then 0 else a % m + 1
  {
    var q, r := a / m, a % m;
    assert a + 1 == q * m + (r + 1);
    if r + 1 == m {
      assert a + 1 == (q + 1) * m;
      MultipleRemainder(q + 1, 0, m);
    } else {
      MultipleRemainder(q, r + 1, m);
    }
  }

  lemma MultipleRemainder(q: int, r: int, m: int)
    requires 0 <= r < m
    ensures (q * m + r) % m == r
  {
    var k := (q * m + r) / m;
    assert q * m + r == k * m + (q * m + r) % m;
    assert (q - k) * m == (q * m + r) % m - r;
    Product(q - k, m);
  }

  lemma Product(k: int, m: int)
    requires m > 0
    ensures k >= 1 ==> k * m >= m
    ensures k <= -1 ==> k * m <= -m
  {
    assert k >= 1 ==> (k - 1) * m >= 0;
    assert k <= -1 ==> (k + 1) * m <= 0;
  }

  /** A time after the idle limit at which an empty bucket is still not full. */
  lemma EarlyEnough(cfg: Config) returns (at: Time)
    requires cfg.cleanupAfter > 0.0 && cfg.burst as real > Refill(cfg, cfg.cleanupAfter)
    ensures at > cfg.cleanupAfter && Refill(cfg, at) < cfg.burst as real
  {
    if cfg.rps == 0 {
      at := cfg.cleanupAfter + 1.0;
    } else {
      var rps := cfg.rps as real;
      at := (cfg.cleanupAfter + cfg.burst as real / rps) / 2.0;
      assert rps * (cfg.burst as real / rps) == cfg.burst as real;
    }
  }

  lemma {:induction false} IdealSplits(cfg: Config, bs: Buckets, xs: seq<Request>, ys: seq<Request>)
    ensures IdealVerdicts(cfg, bs, xs + ys)
      == IdealVerdicts(cfg, bs, xs) + IdealVerdicts(cfg, IdealServeAll(cfg, bs, xs), ys)
    ensures IdealServeAll(cfg, bs, xs + ys) == IdealServeAll(cfg, IdealServeAll(cfg, bs, xs), ys)
    decreases xs
  {
    if xs == [] {
      assert xs + ys == ys;
    } else {
      assert (xs + ys)[1..] == xs[1..] + ys;
      IdealSplits(cfg, IdealServe(cfg, bs, xs[0]), xs[1..], ys);
    }
  }

  /** After the first two phases of the run below the cache has forgotten `ip`, and the ideal
      limiter has not refilled it. */
  lemma ForgottenTooEarly(cfg: Config, at: Time, ip: string, other: string)
    requires !Harmless(cfg) && at > cfg.cleanupAfter && Refill(cfg, at) < cfg.burst as real && ip != other
    ensures var drain, fill := Repeat(ip, 0.0, cfg.burst), Repeat(other, at, cfg.cleanupEvery);
      && ip !in ServeAll(cfg, ServeAll(cfg, EMPTY, drain), fill).entries
      && var bs := IdealServeAll(cfg, IdealServeAll(cfg, map[], drain), fill);
      && ip in bs && Level(cfg, bs[ip], at) < cfg.burst as real
  {
    RefillGrows(cfg, 0.0, cfg.cleanupAfter);
    var drain := Repeat(ip, 0.0, cfg.burst);
    StaysAtZero(cfg, EMPTY, ip, cfg.burst);
    FillersEvict(cfg, ServeAll(cfg, EMPTY, drain), ip, other, at, cfg.cleanupEvery);
    IdealDrains(cfg, map[], ip, 0.0, cfg.burst);
    IdealKeeps(cfg, IdealServeAll(cfg, map[], drain), ip, other, at, cfg.cleanupEvery);
  }

  /** When a bucket does not refill within the idle limit, eviction gives tokens away: empty it, let
      others trigger a cleanup just after the limit, and ask for the whole burst again. */
  lemma ObservableOtherwise(cfg: Config) returns (rs: seq<Request>)
    requires !Harmless(cfg)
    ensures Ordered(rs, 0.0) && Verdicts(cfg, EMPTY, rs) != IdealVerdicts(cfg, map[], rs)
  {
    var at := EarlyEnough(cfg);
    RefillGrows(cfg, 0.0, cfg.cleanupAfter);
    var n, ip, other := cfg.burst, "a", "b";
    ForgottenTooEarly(cfg, at, ip, other);
    var drain, fill, again := Repeat(ip, 0.0, n), Repeat(other, at, cfg.cleanupEvery), Repeat(ip, at, n);
    rs := drain + (fill + again);
    RunOrdered(ip, other, at, n, cfg.cleanupEvery);
    DifferAtEnd(cfg, drain, fill, again, ip, at, n);
  }

  lemma DifferAtEnd(cfg: Config, drain: seq<Request>, fill: seq<Request>, again: seq<Request>,
                    ip: string, at: Time, n: nat)
    requires again == Repeat(ip, at, n) && 0 < n <= cfg.burst
    requires ip !in ServeAll(cfg, ServeAll(cfg, EMPTY, drain), fill).entries
    requires var bs := IdealServeAll(cfg, IdealServeAll(cfg, map[], drain), fill);
      ip in bs && Level(cfg, bs[ip], at) < n as real
    ensures Verdicts(cfg, EMPTY, drain + (fill + again)) != IdealVerdicts(cfg, map[], drain + (fill + again))
  {
    var c1, b1 := ServeAll(cfg, EMPTY, drain), IdealServeAll(cfg, map[], drain);
    var c2, b2 := ServeAll(cfg, c1, fill), IdealServeAll(cfg, b1, fill);
    CacheAdmits(cfg, c2, ip, at, n);
    IdealRefuses(cfg, b2, ip, at, n);
    CacheSplits(cfg, EMPTY, drain, fill + again);
    CacheSplits(cfg, c1, fill, again);
    IdealSplits(cfg, map[], drain, fill + again);
    IdealSplits(cfg, b1, fill, again);
    SameTails(Verdicts(cfg, EMPTY, drain), Verdicts(cfg, c1, fill), Verdicts(cfg, c2, again),
              IdealVerdicts(cfg, map[], drain), IdealVerdicts(cfg, b1, fill), IdealVerdicts(cfg, b2, again));
  }

  lemma SameTails(a: seq<bool>, b: seq<bool>, c: seq<bool>, x: seq<bool>, y: seq<bool>, z: seq<bool>)
    requires |a| == |x| && |b| == |y|
    ensures a + (b + c) == x + (y + z) ==> c == z
  {
    var k := |a| + |b|;
    assert (a + (b + c))[k..] == c && (x + (y + z))[k..] == z;
  }

  lemma RunOrdered(ip: string, other: string, at: Time, n: nat, m: nat)
    requires at > 0.0
    ensures Ordered(Repeat(ip, 0.0, n) + (Repeat(other, at, m) + Repeat(ip, at, n)), 0.0)
  {
    RepeatOrdered(ip, at, n, []);
    assert Repeat(ip, at, n) + [] == Repeat(ip, at, n);
    RepeatOrdered(other, at, m, Repeat(ip, at, n));
    RepeatOrdered(ip, 0.0, n, Repeat(other, at, m) + Repeat(ip, at, n));
  }

  ghost predicate Unobserved(cfg: Config, rs: seq<Request>, start: Time) {
    Ordered(rs, start) ==> Verdicts(cfg, EMPTY, rs) == IdealVerdicts(cfg, map[], rs)
  }

  lemma UnobservedIffHarmless(cfg: Config)
    ensures Harmless(cfg) <==> forall rs: seq<Request>, start: Time :: Unobserved(cfg, rs, start)
  {
    if Harmless(cfg) {
      forall rs: seq<Request>, start: Time | Ordered(rs, start)
        ensures Unobserved(cfg, rs, start)
      {
        EvictionUnobservable(cfg, EMPTY, map[], start, rs);
      }
    } else {
      var rs := ObservableOtherwise(cfg);
      assert !Unobserved(cfg, rs, 0.0);
    }
  }

  /** Eviction is unobservable exactly when a bucket refills within the idle limit. */
  lemma EvictionExact(cfg: Config)
    ensures cfg.cleanupEvery <= 0 || cfg.cleanupAfter <= 0.0 || cfg.burst as real <= cfg.rps as real * cfg.cleanupAfter
      <==> forall rs: seq<Request>, start: Time :: Unobserved(cfg, rs, start)
  {
    hide Unobserved, Refill;
    UnobservedIffHarmless(cfg);
    RefillIs(cfg, cfg.cleanupAfter);
  }
}
