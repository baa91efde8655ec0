/** The keyed token-bucket limiter. Time is in seconds. */
module RateLimit {

  datatype Config = Config(rate: real, burst: real, ttl: real) {
    /** Unset fields take their defaults. */
    function Defaults(): (c: Config)
      ensures c.Valid() && (Valid() ==> c == this)
      ensures rate <= 0.0 && burst <= 0.0 && ttl <= 0.0 ==> c == Config(10.0, 10.0, 600.0)
      ensures burst <= 0.0 ==> c.burst == c.rate
      ensures (rate > 0.0 ==> c.rate == rate) && (burst > 0.0 ==> c.burst == burst) && (ttl > 0.0 ==> c.ttl == ttl)
    {
      var r := if rate <= 0.0 then 10.0 else rate;
      Config(r, if burst <= 0.0 then r else burst, if ttl <= 0.0 then 600.0 else ttl)
    }

    predicate Valid() {
      rate > 0.0 && burst > 0.0 && ttl > 0.0
    }
  }

  datatype Bucket = Bucket(tokens: real, last: real)

  type Buckets = map<string, Bucket>

  // ---- Specification ----------------------------------------------------------------------

  /** The tokens a stretch of time brings. */
  function Earned(cfg: Config, elapsed: real): real {
    elapsed * cfg.rate
  }

  function Refill(cfg: Config, b: Bucket, now: real): real {
    var tokens := b.tokens + Earned(cfg, now - b.last);
    if tokens > cfg.burst then cfg.burst else tokens
  }

  /** The bucket a request finds: a key not seen before starts full. */
  function Found(cfg: Config, m: Buckets, key: string, now: real): Bucket {
    if key in m then m[key] else Bucket(cfg.burst, now)
  }

  function Allows(cfg: Config, m: Buckets, key: string, n: real, now: real): bool {
    Refill(cfg, Found(cfg, m, key, now), now) >= n
  }

  function AfterRequest(cfg: Config, m: Buckets, key: string, n: real, now: real): Buckets {
    var tokens := Refill(cfg, Found(cfg, m, key, now), now);
    m[key := Bucket(if tokens >= n then tokens - n else tokens, now)]
  }

  function AfterSweep(cfg: Config, m: Buckets, now: real): Buckets {
    map key | key in m && !(m[key].last < now - cfg.ttl) :: m[key]
  }

  // ---- The limiter ---------------------------------------------------------------------------

  class Limiter {
    const cfg: Config
    var buckets: Buckets

    constructor (config: Config)
      ensures cfg == config.Defaults() && buckets == map[]
    {
      cfg := config.Defaults();
      buckets := map[];
    }

    /** Takes `n` tokens of the key if they are there; `now` is the time read before the lock. */
    method AllowN(key: string, n: real, now: real) returns (ok: bool)
      modifies this
      ensures ok == Allows(cfg, old(buckets), key, n, now)
      ensures buckets == AfterRequest(cfg, old(buckets), key, n, now)
      ensures key in buckets && buckets - {key} == old(buckets) - {key}
    {
      if key !in buckets {
        buckets := buckets[key := Bucket(cfg.burst, now)];
      }
      var b := buckets[key];
      var elapsed := now - b.last;
      var tokens := b.tokens + elapsed * cfg.rate;
      if tokens > cfg.burst {
        tokens := cfg.burst;
      }
      if tokens >= n {
        buckets := buckets[key := Bucket(tokens - n, now)];
        return true;
      }
      buckets := buckets[key := Bucket(tokens, now)];
      return false;
    }

    /** Evicts every bucket untouched for longer than the TTL. */
    method Sweep(now: real)
      modifies this
      ensures buckets.Keys <= old(buckets).Keys
      ensures forall k :: k in old(buckets) ==>
                if now - old(buckets)[k].last > cfg.ttl then k !in buckets else k in buckets && buckets[k] == old(buckets)[k]
      ensures buckets == AfterSweep(cfg, old(buckets), now)
    {
      var cutoff := now - cfg.ttl;
      var keys := buckets.Keys;
      ghost var start := buckets;
      while keys != {}
        invariant keys <= start.Keys && buckets.Keys <= start.Keys
        invariant forall k :: k in start ==>
                    (k in buckets <==> k in keys || !(start[k].last < cutoff))
        invariant forall k :: k in buckets ==> buckets[k] == start[k]
        decreases keys
      {
        var k :| k in keys;
        keys := keys - {k};
        if buckets[k].last < cutoff {
          buckets := buckets - {k};
        }
      }
    }
  }

  // ---- Runs ----------------------------------------------------------------------------------

  datatype Event = Request(key: string, n: real, now: real) | Sweep(now: real)

  /** The table after an event; without eviction a sweep does nothing. */
  function After(cfg: Config, m: Buckets, e: Event, evict: bool): Buckets {
    match e
    case Request(key, n, now) => AfterRequest(cfg, m, key, n, now)
    case Sweep(now) => if evict then AfterSweep(cfg, m, now) else m
  }

  function Allowed(cfg: Config, m: Buckets, e: Event): bool {
    e.Request? && Allows(cfg, m, e.key, e.n, e.now)
  }

  /** The decisions along a run. */
  function Decisions(cfg: Config, m: Buckets, events: seq<Event>, evict: bool): (ds: seq<bool>)
    ensures |ds| == |events|
    decreases |events|
  {
    if events == [] then []
    else [Allowed(cfg, m, events[0])] + Decisions(cfg, After(cfg, m, events[0], evict), events[1..], evict)
  }

  function RunOf(cfg: Config, m: Buckets, events: seq<Event>, evict: bool): Buckets
    decreases |events|
  {
    if events == [] then m else RunOf(cfg, After(cfg, m, events[0], evict), events[1..], evict)
  }

  /** The tokens granted to one key along a run. */
  function Granted(cfg: Config, m: Buckets, events: seq<Event>, key: string, evict: bool): real
    decreases |events|
  {
    if events == [] then 0.0
    else
      GrantedBy(cfg, m, events[0], key) + Granted(cfg, After(cfg, m, events[0], evict), events[1..], key, evict)
  }

  // ---- The bound -----------------------------------------------------------------------------

  lemma EarnedAdds(cfg: Config, x: real, y: real)
    ensures Earned(cfg, x) + Earned(cfg, y) == Earned(cfg, x + y)
  {
  }

  lemma BoundIs(cfg: Config, granted: real, from: real, to: real)
    requires granted <= cfg.burst + Earned(cfg, to - from)
    ensures granted <= cfg.burst + (to - from) * cfg.rate
  {
  }

  lemma EarnedGrows(cfg: Config, x: real, y: real)
    requires cfg.rate > 0.0 && x <= y
    ensures Earned(cfg, x) <= Earned(cfg, y)
  {
  }

  function GrantedBy(cfg: Config, m: Buckets, e: Event, key: string): real {
    if Allowed(cfg, m, e) && e.key == key then e.n else 0.0
  }

  lemma LedgerStep(cfg: Config, m: Buckets, e: Event, key: string)
    requires key in m
    ensures var m1 := After(cfg, m, e, false);
            key in m1 && m1[key].tokens <= m[key].tokens + Earned(cfg, m1[key].last - m[key].last) - GrantedBy(cfg, m, e, key)
  {
    EarnedAdds(cfg, 0.0, 0.0);
  }

  /** Whatever order the timestamps come in, what a bucket holds has been paid for. */
  lemma {:induction false} Ledger(cfg: Config, m: Buckets, events: seq<Event>, key: string)
    requires key in m
    ensures var b := RunOf(cfg, m, events, false);
            key in b && b[key].tokens <= m[key].tokens + Earned(cfg, b[key].last - m[key].last) - Granted(cfg, m, events, key, false)
    decreases |events|
  {
    if events == [] {
      EarnedAdds(cfg, 0.0, 0.0);
    } else {
      var m1 := After(cfg, m, events[0], false);
      LedgerStep(cfg, m, events[0], key);
      Ledger(cfg, m1, events[1..], key);
      EarnedAdds(cfg, m1[key].last - m[key].last, RunOf(cfg, m, events, false)[key].last - m1[key].last);
    }
  }

  /** Granting never takes more than the bucket holds. */
  lemma {:induction false} LastGranted(cfg: Config, m: Buckets, events: seq<Event>, key: string)
    requires events != [] && key in RunOf(cfg, m, events, false)
    requires events[|events| - 1].Request? && events[|events| - 1].key == key
    requires Decisions(cfg, m, events, false)[|events| - 1]
    ensures RunOf(cfg, m, events, false)[key].tokens >= 0.0
    ensures RunOf(cfg, m, events, false)[key].last == events[|events| - 1].now
    decreases |events|
  {
    if |events| > 1 {
      var m1 := After(cfg, m, events[0], false);
      assert events[1..][|events| - 2] == events[|events| - 1];
      LastGranted(cfg, m1, events[1..], key);
    }
  }

  lemma WindowLedger(cfg: Config, m: Buckets, events: seq<Event>, key: string)
    requires cfg.Valid() && events != []
    requires events[0].Request? && events[0].key == key
    requires events[|events| - 1].Request? && events[|events| - 1].key == key
    requires Decisions(cfg, m, events, false)[|events| - 1]
    ensures Granted(cfg, m, events, key, false) <= cfg.burst + Earned(cfg, events[|events| - 1].now - events[0].now)
  {
    var m1 := After(cfg, m, events[0], false);
    FirstRefill(cfg, m, events[0]);
    Ledger(cfg, m1, events[1..], key);
    LastGranted(cfg, m, events, key);
  }

  /** From any request of a key to any later one that is granted, the key gets at most its burst plus
      the rate times the time between the two. */
  lemma WindowBound(cfg: Config, m: Buckets, events: seq<Event>, key: string)
    requires cfg.Valid() && events != []
    requires events[0].Request? && events[0].key == key
    requires events[|events| - 1].Request? && events[|events| - 1].key == key
    requires Decisions(cfg, m, events, false)[|events| - 1]
    ensures Granted(cfg, m, events, key, false) <= cfg.burst + (events[|events| - 1].now - events[0].now) * cfg.rate
  {
    WindowLedger(cfg, m, events, key);
    BoundIs(cfg, Granted(cfg, m, events, key, false), events[0].now, events[|events| - 1].now);
  }

  lemma FirstRefill(cfg: Config, m: Buckets, e: Event)
    requires e.Request?
    ensures var m1 := After(cfg, m, e, false);
            e.key in m1 && m1[e.key].last == e.now && m1[e.key].tokens + GrantedBy(cfg, m, e, e.key) <= cfg.burst
  {
  }

  // ---- What is denied ------------------------------------------------------------------------

  /** What the key was granted from the `i`-th event of a run on. */
  function GrantedSince(cfg: Config, events: seq<Event>, key: string, evict: bool, i: nat): real
    requires i <= |events|
  {
    Granted(cfg, RunOf(cfg, map[], events[..i], evict), events[i..], key, evict)
  }

  /** Granting `n` more at `t` would exceed what the window from the `i`-th event of the run may have. */
  ghost predicate Exceeds(cfg: Config, events: seq<Event>, key: string, evict: bool, i: nat, n: real, t: real)
    requires i < |events|
  {
    && events[i].Request? && events[i].key == key
    && GrantedSince(cfg, events, key, evict, i) + n > cfg.burst + (t - events[i].now) * cfg.rate
  }

  lemma {:induction false} RunSnoc(cfg: Config, m: Buckets, events: seq<Event>, e: Event, evict: bool)
    ensures RunOf(cfg, m, events + [e], evict) == After(cfg, RunOf(cfg, m, events, evict), e, evict)
    decreases |events|
  {
    if events == [] {
      assert [e][1..] == [] && events + [e] == [e];
    } else {
      RunSnoc(cfg, After(cfg, m, events[0], evict), events[1..], e, evict);
      assert (events + [e])[1..] == events[1..] + [e];
    }
  }

  lemma {:induction false} GrantedSnoc(cfg: Config, m: Buckets, events: seq<Event>, e: Event, key: string, evict: bool)
    ensures Granted(cfg, m, events + [e], key, evict)
            == Granted(cfg, m, events, key, evict) + GrantedBy(cfg, RunOf(cfg, m, events, evict), e, key)
    decreases |events|
  {
    if events == [] {
      assert [e][1..] == [] && events + [e] == [e];
    } else {
      GrantedSnoc(cfg, After(cfg, m, events[0], evict), events[1..], e, key, evict);
      assert (events + [e])[1..] == events[1..] + [e];
    }
  }

  lemma {:induction false} RunAppend(cfg: Config, m: Buckets, a: seq<Event>, b: seq<Event>, evict: bool)
    ensures RunOf(cfg, m, a + b, evict) == RunOf(cfg, RunOf(cfg, m, a, evict), b, evict)
    decreases |a|
  {
    if a == [] {
      assert a + b == b;
    } else {
      RunAppend(cfg, After(cfg, m, a[0], evict), a[1..], b, evict);
      assert (a + b)[1..] == a[1..] + b;
    }
  }

  /** One event more in a window. */
  lemma SinceNext(cfg: Config, events: seq<Event>, e: Event, key: string, i: nat)
    requires i <= |events|
    ensures GrantedSince(cfg, events + [e], key, false, i)
            == GrantedSince(cfg, events, key, false, i) + GrantedBy(cfg, RunOf(cfg, map[], events, false), e, key)
  {
    assert (events + [e])[..i] == events[..i] && (events + [e])[i..] == events[i..] + [e];
    assert events == events[..i] + events[i..];
    RunAppend(cfg, map[], events[..i], events[i..], false);
    GrantedSnoc(cfg, RunOf(cfg, map[], events[..i], false), events[i..], e, key, false);
  }

  lemma SinceEnd(cfg: Config, events: seq<Event>, key: string)
    ensures GrantedSince(cfg, events, key, false, |events|) == 0.0
  {
    assert events[|events|..] == [];
  }

  lemma ExceedsIs(cfg: Config, events: seq<Event>, key: string, i: nat, n: real, t: real)
    requires i < |events|
    ensures Exceeds(cfg, events, key, false, i, n, t)
            <==> events[i].Request? && events[i].key == key
                 && GrantedSince(cfg, events, key, false, i) + n > cfg.burst + Earned(cfg, t - events[i].now)
  {
  }

  /** A window seen from a later time, and with what `e` was granted. */
  lemma ExceedsNext(cfg: Config, events: seq<Event>, e: Event, key: string, i: nat, n: real, t: real)
    requires i < |events| && e.Request? && e.key == key
    ensures var g := GrantedBy(cfg, RunOf(cfg, map[], events, false), e, key);
            Exceeds(cfg, events + [e], key, false, i, n, t)
            <==> Exceeds(cfg, events, key, false, i, n + g - Earned(cfg, t - e.now), e.now)
  {
    SinceNext(cfg, events, e, key, i);
    EarnedAdds(cfg, t - e.now, e.now - events[i].now);
    ExceedsIs(cfg, events + [e], key, i, n, t);
    ExceedsIs(cfg, events, key, i, n + GrantedBy(cfg, RunOf(cfg, map[], events, false), e, key) - Earned(cfg, t - e.now), e.now);
  }

  lemma ExceedsLast(cfg: Config, events: seq<Event>, e: Event, key: string, n: real, t: real)
    requires e.Request? && e.key == key
    ensures var g := GrantedBy(cfg, RunOf(cfg, map[], events, false), e, key);
            Exceeds(cfg, events + [e], key, false, |events|, n, t) <==> n + g - Earned(cfg, t - e.now) > cfg.burst
  {
    SinceNext(cfg, events, e, key, |events|);
    SinceEnd(cfg, events, key);
    ExceedsIs(cfg, events + [e], key, |events|, n, t);
  }

  /** What a bucket holds for a later request, after one of the same key. */
  lemma RefillNext(cfg: Config, m: Buckets, e: Event, n: real, t: real)
    requires e.Request?
    ensures var m1, g := AfterRequest(cfg, m, e.key, e.n, e.now), GrantedBy(cfg, m, e, e.key);
            !Allows(cfg, m1, e.key, n, t)
            <==> n > cfg.burst || !Allows(cfg, m, e.key, n + g - Earned(cfg, t - e.now), e.now)
  {
  }

  lemma OtherWindow(cfg: Config, events: seq<Event>, e: Event, key: string, i: nat, n: real, t: real)
    requires i < |events| && !(e.Request? && e.key == key)
    ensures Exceeds(cfg, events + [e], key, false, i, n, t) == Exceeds(cfg, events, key, false, i, n, t)
  {
    SinceNext(cfg, events, e, key, i);
    ExceedsIs(cfg, events + [e], key, i, n, t);
    ExceedsIs(cfg, events, key, i, n, t);
  }

  /** Another event leaves the key's bucket alone. */
  lemma OtherEvent(cfg: Config, events: seq<Event>, e: Event, key: string, n: real, t: real)
    requires !(e.Request? && e.key == key)
    ensures Allows(cfg, RunOf(cfg, map[], events + [e], false), key, n, t)
            == Allows(cfg, RunOf(cfg, map[], events, false), key, n, t)
    ensures forall i :: 0 <= i < |events| ==>
              Exceeds(cfg, events + [e], key, false, i, n, t) == Exceeds(cfg, events, key, false, i, n, t)
  {
    RunSnoc(cfg, map[], events, e, false);
    forall i | 0 <= i < |events|
      ensures Exceeds(cfg, events + [e], key, false, i, n, t) == Exceeds(cfg, events, key, false, i, n, t)
    {
      OtherWindow(cfg, events, e, key, i, n, t);
    }
  }

  /** A request is denied exactly when granting it would exceed what some window ending with it may have: the burst plus
      the rate times the length of the window. The window starts with the request itself or with an earlier one of the
      key. So nothing else counts against a client; in particular a denied request costs nothing. */
  lemma {:induction false} DeniedExactly(cfg: Config, events: seq<Event>, key: string, n: real, t: real)
    ensures !Allows(cfg, RunOf(cfg, map[], events, false), key, n, t)
            <==> n > cfg.burst || exists i :: 0 <= i < |events| && Exceeds(cfg, events, key, false, i, n, t)
    decreases |events|
  {
    if events == [] {
      NewIsFull(cfg, t);
    } else {
      var k := |events| - 1;
      var before, e := events[..k], events[k];
      assert events == before + [e];
      if e.Request? && e.key == key {
        var m := RunOf(cfg, map[], before, false);
        var n' := n + GrantedBy(cfg, m, e, key) - Earned(cfg, t - e.now);
        RunSnoc(cfg, map[], before, e, false);
        RefillNext(cfg, m, e, n, t);
        DeniedExactly(cfg, before, key, n', e.now);
        ExceedsLast(cfg, before, e, key, n, t);
        forall i | 0 <= i < k
          ensures Exceeds(cfg, events, key, false, i, n, t) <==> Exceeds(cfg, before, key, false, i, n', e.now)
        {
          ExceedsNext(cfg, before, e, key, i, n, t);
        }
      } else {
        DeniedExactly(cfg, before, key, n, t);
        OtherEvent(cfg, before, e, key, n, t);
      }
    }
  }

  // ---- Eviction ------------------------------------------------------------------------------

  function TimeOf(e: Event): real {
    e.now
  }

  /** The clock does not run backwards. */
  predicate Ordered(events: seq<Event>, from: real) {
    forall i :: 0 <= i < |events| ==> from <= TimeOf(events[i]) && (i > 0 ==> TimeOf(events[i - 1]) <= TimeOf(events[i]))
  }

  /** The table with eviction and the one without: what was evicted would be full by now. */
  ghost predicate Agree(cfg: Config, m: Buckets, full: Buckets, now: real) {
    && m.Keys <= full.Keys
    && (forall k :: k in m ==> m[k] == full[k])
    && (forall k :: k in full ==> full[k].tokens >= 0.0 && full[k].last <= now)
    && (forall k :: k in full && k !in m ==> full[k].last < now - cfg.ttl)
  }

  /** A bucket idle for longer than the TTL is full when the TTL suffices to refill it. */
  lemma IdleIsFull(cfg: Config, b: Bucket, now: real)
    requires cfg.Valid() && Earned(cfg, cfg.ttl) >= cfg.burst
    requires b.tokens >= 0.0 && b.last < now - cfg.ttl
    ensures Refill(cfg, b, now) == cfg.burst
  {
    EarnedGrows(cfg, cfg.ttl, now - b.last);
  }

  lemma RefillNonNegative(cfg: Config, b: Bucket, now: real)
    requires cfg.Valid() && b.tokens >= 0.0 && b.last <= now
    ensures Refill(cfg, b, now) >= 0.0
  {
    EarnedAdds(cfg, 0.0, 0.0);
    EarnedGrows(cfg, 0.0, now - b.last);
  }

  lemma NewIsFull(cfg: Config, now: real)
    ensures Refill(cfg, Bucket(cfg.burst, now), now) == cfg.burst
  {
    EarnedAdds(cfg, 0.0, 0.0);
  }

  /** A request sees the same tokens in both tables. */
  lemma AgreeRefill(cfg: Config, m: Buckets, full: Buckets, from: real, key: string, now: real)
    requires cfg.Valid() && Earned(cfg, cfg.ttl) >= cfg.burst
    requires Agree(cfg, m, full, from) && from <= now
    ensures Refill(cfg, Found(cfg, m, key, now), now) == Refill(cfg, Found(cfg, full, key, now), now) >= 0.0
  {
    NewIsFull(cfg, now);
    if key in full {
      RefillNonNegative(cfg, full[key], now);
      if key !in m { IdleIsFull(cfg, full[key], now); }
    }
  }

  lemma AgreeNext(cfg: Config, m: Buckets, full: Buckets, from: real, e: Event)
    requires cfg.Valid() && Earned(cfg, cfg.ttl) >= cfg.burst
    requires Agree(cfg, m, full, from) && from <= TimeOf(e)
    ensures Allowed(cfg, m, e) == Allowed(cfg, full, e)
    ensures Agree(cfg, After(cfg, m, e, true), After(cfg, full, e, false), TimeOf(e))
  {
    if e.Request? { AgreeRefill(cfg, m, full, from, e.key, e.now); }
  }

  lemma {:induction false} SameDecisions(cfg: Config, m: Buckets, full: Buckets, from: real, events: seq<Event>)
    requires cfg.Valid() && Earned(cfg, cfg.ttl) >= cfg.burst
    requires Agree(cfg, m, full, from) && Ordered(events, from)
    ensures Decisions(cfg, m, events, true) == Decisions(cfg, full, events, false)
    decreases |events|
  {
    if events != [] {
      AgreeNext(cfg, m, full, from, events[0]);
      OrderedTail(events, from);
      SameDecisions(cfg, After(cfg, m, events[0], true), After(cfg, full, events[0], false), TimeOf(events[0]), events[1..]);
    }
  }

  lemma OrderedTail(events: seq<Event>, from: real)
    requires Ordered(events, from) && events != []
    ensures from <= TimeOf(events[0]) && Ordered(events[1..], TimeOf(events[0]))
  {
    var e, rest := events[0], events[1..];
    forall i | 0 <= i < |rest|
      ensures TimeOf(e) <= TimeOf(rest[i]) && (i > 0 ==> TimeOf(rest[i - 1]) <= TimeOf(rest[i]))
    {
      OrderedFrom(events, from, i + 1);
      assert rest[i] == events[i + 1] && (i > 0 ==> rest[i - 1] == events[i]);
    }
  }

  lemma {:induction false} OrderedFrom(events: seq<Event>, from: real, i: nat)
    requires Ordered(events, from) && i < |events|
    ensures TimeOf(events[0]) <= TimeOf(events[i])
    decreases i
  {
    if i > 0 { OrderedFrom(events, from, i - 1); }
  }

  /** Along a run on an ordered clock the two tables stay in agreement. */
  lemma {:induction false} AgreeRun(cfg: Config, m: Buckets, full: Buckets, from: real, events: seq<Event>, to: real)
    requires cfg.Valid() && Earned(cfg, cfg.ttl) >= cfg.burst
    requires Agree(cfg, m, full, from) && Ordered(events, from) && from <= to
    requires forall i :: 0 <= i < |events| ==> TimeOf(events[i]) <= to
    ensures Agree(cfg, RunOf(cfg, m, events, true), RunOf(cfg, full, events, false), to)
    decreases |events|
  {
    if events != [] {
      AgreeNext(cfg, m, full, from, events[0]);
      OrderedTail(events, from);
      AgreeRun(cfg, After(cfg, m, events[0], true), After(cfg, full, events[0], false), TimeOf(events[0]), events[1..], to);
    }
  }

  /** They grant the same tokens. */
  lemma {:induction false} SameGranted(cfg: Config, m: Buckets, full: Buckets, from: real, events: seq<Event>, key: string)
    requires cfg.Valid() && Earned(cfg, cfg.ttl) >= cfg.burst
    requires Agree(cfg, m, full, from) && Ordered(events, from)
    ensures Granted(cfg, m, events, key, true) == Granted(cfg, full, events, key, false)
    decreases |events|
  {
    if events != [] {
      AgreeNext(cfg, m, full, from, events[0]);
      OrderedTail(events, from);
      SameGranted(cfg, After(cfg, m, events[0], true), After(cfg, full, events[0], false), TimeOf(events[0]), events[1..], key);
    }
  }

  /** The bound holds for the limiter as it is, evicting: after any history `before`, in any window that
      starts with a request of the key and ends with a granted one. */
  lemma EvictingWindowBound(cfg: Config, before: seq<Event>, events: seq<Event>, from: real, key: string)
    requires cfg.Valid() && Earned(cfg, cfg.ttl) >= cfg.burst && events != []
    requires Ordered(before, from) && Ordered(events, from)
    requires from <= TimeOf(events[0]) && forall i :: 0 <= i < |before| ==> TimeOf(before[i]) <= TimeOf(events[0])
    requires events[0].Request? && events[0].key == key
    requires events[|events| - 1].Request? && events[|events| - 1].key == key
    requires Decisions(cfg, RunOf(cfg, map[], before, true), events, true)[|events| - 1]
    ensures Granted(cfg, RunOf(cfg, map[], before, true), events, key, true)
            <= cfg.burst + (events[|events| - 1].now - events[0].now) * cfg.rate
  {
    var m, full, start := RunOf(cfg, map[], before, true), RunOf(cfg, map[], before, false), TimeOf(events[0]);
    AgreeRun(cfg, map[], map[], from, before, start);
    OrderedLater(events, from);
    SameDecisions(cfg, m, full, start, events);
    SameGranted(cfg, m, full, start, events, key);
    WindowBound(cfg, full, events, key);
  }

  lemma OrderedLater(events: seq<Event>, from: real)
    requires Ordered(events, from) && events != []
    ensures Ordered(events, TimeOf(events[0]))
  {
    forall i | 0 <= i < |events| ensures TimeOf(events[0]) <= TimeOf(events[i]) { OrderedFrom(events, from, i); }
  }

  /** What is granted in a window of a run does not depend on eviction. */
  lemma SameSince(cfg: Config, events: seq<Event>, from: real, key: string, i: nat)
    requires cfg.Valid() && Earned(cfg, cfg.ttl) >= cfg.burst && Ordered(events, from) && i < |events|
    ensures GrantedSince(cfg, events, key, true, i) == GrantedSince(cfg, events, key, false, i)
  {
    var before, window, start := events[..i], events[i..], TimeOf(events[i]);
    assert window == events[i..] && window[0] == events[i];
    assert Ordered(window, start) by {
      forall j | 0 <= j < |window|
        ensures start <= TimeOf(window[j]) && (j > 0 ==> TimeOf(window[j - 1]) <= TimeOf(window[j]))
      {
        OrderedBetween(events, from, i, i + j);
        assert j > 0 ==> window[j - 1] == events[i + j - 1];
      }
    }
    assert Ordered(before, from);
    forall j | 0 <= j < |before| ensures TimeOf(before[j]) <= start { OrderedBetween(events, from, j, i); }
    AgreeRun(cfg, map[], map[], from, before, start);
    SameGranted(cfg, RunOf(cfg, map[], before, true), RunOf(cfg, map[], before, false), start, window, key);
  }

  lemma {:induction false} OrderedBetween(events: seq<Event>, from: real, i: nat, j: nat)
    requires Ordered(events, from) && i <= j < |events|
    ensures TimeOf(events[i]) <= TimeOf(events[j])
    decreases j
  {
    if i < j { OrderedBetween(events, from, i, j - 1); }
  }

  /** The same for the limiter as it is, evicting, on a clock that does not run backwards. */
  lemma EvictingDeniedExactly(cfg: Config, events: seq<Event>, from: real, key: string, n: real, t: real)
    requires cfg.Valid() && cfg.rate * cfg.ttl >= cfg.burst && Ordered(events, from) && from <= t
    requires forall i :: 0 <= i < |events| ==> TimeOf(events[i]) <= t
    ensures !Allows(cfg, RunOf(cfg, map[], events, true), key, n, t)
            <==> n > cfg.burst || exists i :: 0 <= i < |events| && Exceeds(cfg, events, key, true, i, n, t)
  {
    AgreeRun(cfg, map[], map[], from, events, t);
    AgreeRefill(cfg, RunOf(cfg, map[], events, true), RunOf(cfg, map[], events, false), t, key, t);
    DeniedExactly(cfg, events, key, n, t);
    forall i | 0 <= i < |events|
      ensures Exceeds(cfg, events, key, true, i, n, t) == Exceeds(cfg, events, key, false, i, n, t)
    {
      SameSince(cfg, events, from, key, i);
    }
  }

  /** Eviction cannot be noticed: on no run with a clock that does not run backwards. */
  ghost predicate EvictionInvisible(cfg: Config) {
    forall events, from :: Ordered(events, from) ==>
      Decisions(cfg, map[], events, true) == Decisions(cfg, map[], events, false)
  }

  /** Three events that tell the two limiters apart when the TTL is too short. */
  function Telltale(cfg: Config, t: real): seq<Event> {
    [Request("k", cfg.burst, 0.0), Sweep(t), Request("k", cfg.burst, t)]
  }

  lemma TelltaleDecisions(cfg: Config, t: real)
    requires cfg.Valid() && cfg.ttl < t && Earned(cfg, t) < cfg.burst
    ensures Decisions(cfg, map[], Telltale(cfg, t), true) != Decisions(cfg, map[], Telltale(cfg, t), false)
  {
    var events := Telltale(cfg, t);
    var m1 := After(cfg, map[], events[0], false);
    NewIsFull(cfg, 0.0);
    NewIsFull(cfg, t);
    assert m1["k"] == Bucket(0.0, 0.0);
    var swept := AfterSweep(cfg, m1, t);
    assert "k" !in swept;
    ThreeDecisions(cfg, map[], events, true);
    ThreeDecisions(cfg, map[], events, false);
  }

  lemma ThreeDecisions(cfg: Config, m: Buckets, events: seq<Event>, evict: bool)
    requires |events| == 3
    ensures |Decisions(cfg, m, events, evict)| == 3
    ensures Decisions(cfg, m, events, evict)[2]
            == Allowed(cfg, After(cfg, After(cfg, m, events[0], evict), events[1], evict), events[2])
  {
    var m1 := After(cfg, m, events[0], evict);
    var m2 := After(cfg, m1, events[1], evict);
    var tail := events[1..][1..];
    assert tail == [events[2]] && tail[1..] == [];
    assert Decisions(cfg, After(cfg, m2, events[2], evict), [], evict) == [];
    var last := Decisions(cfg, m2, events[1..][1..], evict);
    assert last == [Allowed(cfg, m2, events[2])];
    assert Decisions(cfg, m1, events[1..], evict) == [Allowed(cfg, m1, events[1])] + last;
  }

  /** Evicting idle buckets changes no decision exactly when the TTL is long enough for an empty bucket
      to fill up. */
  lemma EvictionExact(cfg: Config)
    requires cfg.Valid()
    ensures EvictionInvisible(cfg) <==> cfg.rate * cfg.ttl >= cfg.burst
  {
    if Earned(cfg, cfg.ttl) >= cfg.burst {
      forall events, from | Ordered(events, from)
        ensures Decisions(cfg, map[], events, true) == Decisions(cfg, map[], events, false)
      {
        SameDecisions(cfg, map[], map[], from, events);
      }
    } else {
      var t := MidTime(cfg);
      TelltaleDecisions(cfg, t);
      assert Ordered(Telltale(cfg, t), 0.0);
    }
  }

  lemma MidTime(cfg: Config) returns (t: real)
    requires cfg.Valid() && Earned(cfg, cfg.ttl) < cfg.burst
    ensures cfg.ttl < t && Earned(cfg, t) < cfg.burst
  {
    var missing := cfg.burst - Earned(cfg, cfg.ttl);
    var step := missing / (2.0 * cfg.rate);
    assert step * cfg.rate == missing / 2.0;
    t := cfg.ttl + step;
    EarnedAdds(cfg, cfg.ttl, step);
  }
}
