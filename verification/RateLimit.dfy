/** The fixed-window rate limiter, and what it admits over sliding intervals. Instants are nanoseconds. */
module RateLimit {
  import opened Base
  import opened Lru
  import opened Responses

  const DEFAULT_MAX_ENTRIES: nat := 10_000

  datatype Counter = Counter(count: nat, start: nat, windowSecs: nat)

  datatype Verdict = Verdict(allowed: bool, count: nat, limit: nat, retryAfter: nat)

  /** What a client is held to. */
  datatype Policy = Policy(limit: nat, windowSecs: nat, burst: Option<nat>)

  function EffectiveLimit(p: Policy): nat { p.limit + if p.burst.Some? then p.burst.value else 0 }

  predicate Expired(c: Counter, now: nat) { SaturatingSub(now, c.start) >= c.windowSecs * NANOS }

  /** The counter after a request, and the answer. */
  function Judge(c: Option<Counter>, p: Policy, now: nat): (Counter, Verdict) {
    match c
    case None => (Counter(1, now, p.windowSecs), Verdict(true, 1, EffectiveLimit(p), p.windowSecs))
    case Some(c) =>
      var left := SaturatingSub(c.windowSecs * NANOS, SaturatingSub(now, c.start)) / NANOS;
      if Expired(c, now) then (Counter(1, now, p.windowSecs), Verdict(true, 1, EffectiveLimit(p), p.windowSecs))
      else if c.count < EffectiveLimit(p) then
        (c.(count := c.count + 1), Verdict(true, c.count + 1, EffectiveLimit(p), left))
      else (c, Verdict(false, c.count, EffectiveLimit(p), left))
  }

  type Counters = seq<Pair<Counter>>

  datatype Request = Check(key: string, policy: Policy, now: nat) | Read(key: string, now: nat)

  function Serve(capacity: nat, l: Counters, r: Request): Counters {
    match r
    case Check(key, policy, now) =>
      var after := Judge(Find(l, key), policy, now).0;
      if Find(l, key).Some? then Store(l, key, after) else Push(l, capacity, key, after)
    case Read(key, _) =>
      match Find(l, key)
      case None => l
      case Some(c) => Store(l, key, c)
  }

  /** Counters after serving every request from an empty store. */
  function Run(capacity: nat, rs: seq<Request>): Counters {
    if rs == [] then [] else Serve(capacity, Run(capacity, rs[..|rs| - 1]), rs[|rs| - 1])
  }

  predicate Admits(l: Counters, r: Request, key: string) {
    r.Check? && r.key == key && Judge(Find(l, key), r.policy, r.now).1.allowed
  }

  /** How many requests of `key` were admitted at instants in [from, to). */
  function Admitted(capacity: nat, rs: seq<Request>, key: string, from: int, to: int): nat {
    if rs == [] then 0
    else
      var before := rs[..|rs| - 1];
      var r := rs[|rs| - 1];
      Admitted(capacity, before, key, from, to)
      + if Admits(Run(capacity, before), r, key) && from <= r.now < to then 1 else 0
  }

  class RateLimitStore {
    const capacity: nat
    var counters: Counters

    constructor (maxEntries: nat)
      ensures counters == [] && capacity == if maxEntries == 0 then DEFAULT_MAX_ENTRIES else maxEntries
    {
      capacity := if maxEntries == 0 then DEFAULT_MAX_ENTRIES else maxEntries;
      counters := [];
    }

    method CheckAndIncrement(key: string, limit: nat, windowSecs: nat, burst: Option<nat>, now: nat)
      returns (allowed: bool, count: nat, effective: nat, retryAfter: nat)
      modifies this
      ensures counters == Serve(capacity, old(counters), Check(key, Policy(limit, windowSecs, burst), now))
      ensures Verdict(allowed, count, effective, retryAfter)
           == Judge(Find(old(counters), key), Policy(limit, windowSecs, burst), now).1
    {
      effective := limit + if burst.Some? then burst.value else 0;
      var entry := Find(counters, key);
      if entry.Some? {
        var c := entry.value;
        var elapsed := SaturatingSub(now, c.start);
        var duration := c.windowSecs * NANOS;
        if elapsed >= duration {
          counters := Store(counters, key, Counter(1, now, windowSecs));
          allowed, count, retryAfter := true, 1, windowSecs;
        } else if c.count < effective {
          counters := Store(counters, key, c.(count := c.count + 1));
          allowed, count, retryAfter := true, c.count + 1, (duration - elapsed) / NANOS;
        } else {
          counters := Store(counters, key, c);
          allowed, count, retryAfter := false, c.count, (duration - elapsed) / NANOS;
        }
      } else {
        counters := Push(counters, capacity, key, Counter(1, now, windowSecs));
        allowed, count, retryAfter := true, 1, windowSecs;
      }
    }

    /** The count of the running window; reading also makes the key recent. */
    method GetCount(key: string, now: nat) returns (count: Option<nat>)
      modifies this
      ensures counters == Serve(capacity, old(counters), Read(key, now))
      ensures match Find(old(counters), key)
              case None => count == None
              case Some(c) => count == Some(if Expired(c, now) then 0 else c.count)
    {
      var entry := Find(counters, key);
      if entry.None? { return None; }
      counters := Store(counters, key, entry.value);
      return Some(if Expired(entry.value, now) then 0 else entry.value.count);
    }
  }

  // ----- the bound -----

  /** Requests are serialized under a clock that does not run backwards. */
  predicate InOrder(rs: seq<Request>) { forall i, j :: 0 <= i < j < |rs| ==> rs[i].now <= rs[j].now }

  predicate OnePolicy(rs: seq<Request>, key: string, p: Policy) {
    forall i :: 0 <= i < |rs| && rs[i].Check? && rs[i].key == key ==> rs[i].policy == p
  }

  /** Once counted, the key is never evicted. */
  predicate Kept(capacity: nat, rs: seq<Request>, key: string) {
    forall i :: 0 <= i < |rs| && Find(Run(capacity, rs[..i]), key).Some? ==> Find(Run(capacity, rs[..i + 1]), key).Some?
  }

  function Budget(p: Policy): nat { Max(1, EffectiveLimit(p)) }

  lemma ServeFind(capacity: nat, l: Counters, r: Request, key: string)
    requires Distinct(l)
    ensures r.key == key && r.Check? ==>
        Find(Serve(capacity, l, r), key) == Some(Judge(Find(l, key), r.policy, r.now).0)
    ensures !(r.key == key && r.Check?) && Find(Serve(capacity, l, r), key).Some? ==>
        Find(Serve(capacity, l, r), key) == Find(l, key)
  {
    match r
    case Check(k, p, now) =>
      var after := Judge(Find(l, k), p, now).0;
      FindStore(l, k, after, key);
      FindPush(l, capacity, k, after, key);
    case Read(k, _) =>
      if Find(l, k).Some? { FindStore(l, k, Find(l, k).value, key); }
  }

  lemma {:induction false} RunDistinct(capacity: nat, rs: seq<Request>)
    requires capacity > 0
    ensures Distinct(Run(capacity, rs)) && |Run(capacity, rs)| <= capacity
  {
    if rs != [] {
      var l, r := Run(capacity, rs[..|rs| - 1]), rs[|rs| - 1];
      RunDistinct(capacity, rs[..|rs| - 1]);
      match r
      case Check(k, p, now) =>
        StoreProps(l, k, Judge(Find(l, k), p, now).0);
        PushProps(l, capacity, k, Judge(Find(l, k), p, now).0);
      case Read(k, _) =>
        if Find(l, k).Some? { StoreProps(l, k, Find(l, k).value); }
    }
  }

  /** A run under one policy, in which the key is never evicted. */
  predicate Regular(capacity: nat, rs: seq<Request>, key: string, p: Policy) {
    capacity > 0 && InOrder(rs) && OnePolicy(rs, key, p) && Kept(capacity, rs, key)
  }

  lemma RegularPrefix(capacity: nat, rs: seq<Request>, key: string, p: Policy)
    requires Regular(capacity, rs, key, p) && rs != []
    ensures Regular(capacity, rs[..|rs| - 1], key, p)
    ensures var before := Find(Run(capacity, rs[..|rs| - 1]), key);
            before.Some? ==> Find(Run(capacity, rs), key).Some?
    ensures |rs| > 1 ==> rs[|rs| - 2].now <= rs[|rs| - 1].now
  {
    var before := rs[..|rs| - 1];
    assert rs[..|rs| - 1 + 1] == rs;
    forall i | 0 <= i < |before| && Find(Run(capacity, before[..i]), key).Some?
      ensures Find(Run(capacity, before[..i + 1]), key).Some?
    {
      assert before[..i] == rs[..i] && before[..i + 1] == rs[..i + 1];
    }
  }

  lemma {:induction false} AdmittedSplits(capacity: nat, rs: seq<Request>, key: string, a: int, b: int, c: int)
    requires a <= b <= c
    ensures Admitted(capacity, rs, key, a, c) == Admitted(capacity, rs, key, a, b) + Admitted(capacity, rs, key, b, c)
  {
    if rs != [] { AdmittedSplits(capacity, rs[..|rs| - 1], key, a, b, c); }
  }

  lemma {:induction false} AdmittedEmpty(capacity: nat, rs: seq<Request>, key: string, a: int, b: int)
    requires b <= a
    ensures Admitted(capacity, rs, key, a, b) == 0
  {
    if rs != [] { AdmittedEmpty(capacity, rs[..|rs| - 1], key, a, b); }
  }

  function Span(p: Policy): nat { p.windowSecs * NANOS }

  /** The counter is exactly what its window admitted, the first admission being at its start; nothing was admitted
      after the window. */
  ghost predicate Tally(capacity: nat, rs: seq<Request>, key: string, p: Policy) {
    match Find(Run(capacity, rs), key)
    case None => forall a, b :: Admitted(capacity, rs, key, a, b) == 0
    case Some(c) =>
      && c.windowSecs == p.windowSecs && 1 <= c.count <= Budget(p)
      && rs != [] && c.start <= rs[|rs| - 1].now
      && (forall b :: b >= c.start + Span(p) ==> Admitted(capacity, rs, key, c.start, b) == c.count)
      && (forall a, b :: a > c.start ==> Admitted(capacity, rs, key, a, b) < c.count)
      && (forall a, b :: a >= c.start + Span(p) ==> Admitted(capacity, rs, key, a, b) == 0)
  }

  /** What one more request does to the key: nothing, one more in the running window, or a new window after the last. */
  lemma OneMore(capacity: nat, rs: seq<Request>, key: string, p: Policy) returns (admitted: bool)
    requires Regular(capacity, rs, key, p) && rs != []
    requires Regular(capacity, rs[..|rs| - 1], key, p) && Tally(capacity, rs[..|rs| - 1], key, p)
    ensures var before, now := rs[..|rs| - 1], rs[|rs| - 1].now;
            var was, next := Find(Run(capacity, before), key), Find(Run(capacity, rs), key);
            && (forall a, b :: Admitted(capacity, rs, key, a, b)
                               == Admitted(capacity, before, key, a, b) + if admitted && a <= now < b then 1 else 0)
            && (was.Some? ==> was.value.start <= now)
            && (!admitted ==> next == was)
            && (admitted && (was.None? || Expired(was.value, now)) ==> next == Some(Counter(1, now, p.windowSecs)))
            && (admitted && was.Some? && !Expired(was.value, now) ==>
                  was.value.count + 1 <= Budget(p) && next == Some(was.value.(count := was.value.count + 1)))
  {
    var before, r := rs[..|rs| - 1], rs[|rs| - 1];
    RegularPrefix(capacity, rs, key, p);
    RunDistinct(capacity, before);
    var l := Run(capacity, before);
    ServeFind(capacity, l, r, key);
    admitted := Admits(l, r, key);
    assert before != [] ==> before[|before| - 1] == rs[|rs| - 2];
    hide Run, Serve;
    assert Run(capacity, rs) == Serve(capacity, l, r) by { RunLast(capacity, rs); }
  }

  lemma RunLast(capacity: nat, rs: seq<Request>)
    requires rs != []
    ensures Run(capacity, rs) == Serve(capacity, Run(capacity, rs[..|rs| - 1]), rs[|rs| - 1])
  {
    hide Serve;
  }

  lemma {:induction false} CountersTally(capacity: nat, rs: seq<Request>, key: string, p: Policy)
    requires Regular(capacity, rs, key, p) && p.windowSecs > 0
    ensures Tally(capacity, rs, key, p)
  {
    if rs != [] {
      RegularPrefix(capacity, rs, key, p);
      CountersTally(capacity, rs[..|rs| - 1], key, p);
      var admitted := OneMore(capacity, rs, key, p);
      hide Run, Admitted, Regular, Find;
      assert Span(p) > 0;
    }
  }

  /** The key that was asked about becomes the most recent, whatever the answer; a new one pushes the least recent out
      of a full store; the others keep their order. */
  lemma ServedLast(capacity: nat, l: Counters, r: Request)
    requires Distinct(l) && (r.Check? || Find(l, r.key).Some?)
    ensures var after := Serve(capacity, l, r);
            var kept := if Find(l, r.key).None? && |l| >= capacity && l != [] then l[1..] else l;
            && after != [] && after[|after| - 1].key == r.key && after[..|after| - 1] == Without(kept, r.key)
  {
  }

  /** What a client is told, after any run: within the running window it is admitted if and only if the window
      admitted fewer than the limit and the burst so far, and is told how many that makes; outside of one it is
      the first of a new window. The seconds told are those left of the window, rounded down: one second later a
      refused client is admitted, and any earlier than told it is not. */
  lemma AnswersTold(capacity: nat, rs: seq<Request>, key: string, p: Policy, now: nat, later: nat)
    requires Regular(capacity, rs, key, p) && p.windowSecs > 0
    requires (rs != [] ==> rs[|rs| - 1].now <= now) && now <= later
    ensures var c := Find(Run(capacity, rs), key);
            var v := Judge(c, p, now).1;
            var limit := p.limit + if p.burst.Some? then p.burst.value else 0;
            && v.limit == limit
            && if c.Some? && now < c.value.start + p.windowSecs * NANOS then
                 var end := c.value.start + p.windowSecs * NANOS;
                 var so := Admitted(capacity, rs, key, c.value.start, end);
                 && v.allowed == (so < limit)
                 && v.count == so + (if v.allowed then 1 else 0)
                 && v.retryAfter * NANOS <= end - now < (v.retryAfter + 1) * NANOS
                 && (!v.allowed ==>
                       var again := Judge(Some(Judge(c, p, now).0), p, later).1;
                       && (later >= now + (v.retryAfter + 1) * NANOS ==> again.allowed)
                       && (later < now + v.retryAfter * NANOS ==> !again.allowed))
               else v.allowed && v.count == 1 && v.retryAfter == p.windowSecs
  {
    CountersTally(capacity, rs, key, p);
    hide Run, Admitted, Find, Regular;
  }

  /** Every counted window, however far the run has gone on, admitted at most the budget. */
  lemma {:induction false} WindowBound(capacity: nat, rs: seq<Request>, key: string, p: Policy, i: nat, c: Counter)
    requires Regular(capacity, rs, key, p) && i <= |rs| && Find(Run(capacity, rs[..i]), key) == Some(c)
    ensures Admitted(capacity, rs, key, c.start, c.start + Span(p)) <= Budget(p)
    ensures p.windowSecs > 0 ==>
              var now := Find(Run(capacity, rs), key);
              now.Some? && (now.value.start == c.start || now.value.start >= c.start + Span(p))
  {
    hide Run, Find, Admitted, Budget, Tally, Regular;
    if p.windowSecs == 0 {
      AdmittedEmpty(capacity, rs, key, c.start, c.start);
    } else {
      CountersTally(capacity, rs, key, p);
      if i == |rs| {
        assert rs[..i] == rs;
        TallyWindow(capacity, rs, key, p, c);
      } else {
        var before := rs[..|rs| - 1];
        assert before[..i] == rs[..i];
        RegularPrefix(capacity, rs, key, p);
        WindowBound(capacity, before, key, p, i, c);
        CountersTally(capacity, before, key, p);
        WindowStep(capacity, rs, key, p, c);
      }
    }
  }

  lemma TallyWindow(capacity: nat, rs: seq<Request>, key: string, p: Policy, c: Counter)
    requires Tally(capacity, rs, key, p) && Find(Run(capacity, rs), key) == Some(c)
    ensures Admitted(capacity, rs, key, c.start, c.start + Span(p)) <= Budget(p)
  {
    hide Run, Find, Admitted, Budget;
  }

  /** One more request neither enters a window that is over nor overfills the running one. */
  lemma WindowStep(capacity: nat, rs: seq<Request>, key: string, p: Policy, c: Counter)
    requires rs != [] && Regular(capacity, rs, key, p) && Regular(capacity, rs[..|rs| - 1], key, p)
    requires p.windowSecs > 0 && Tally(capacity, rs[..|rs| - 1], key, p) && Tally(capacity, rs, key, p)
    requires Admitted(capacity, rs[..|rs| - 1], key, c.start, c.start + Span(p)) <= Budget(p)
    requires var was := Find(Run(capacity, rs[..|rs| - 1]), key);
             was.Some? && (was.value.start == c.start || was.value.start >= c.start + Span(p))
    ensures Admitted(capacity, rs, key, c.start, c.start + Span(p)) <= Budget(p)
    ensures var now := Find(Run(capacity, rs), key);
            now.Some? && (now.value.start == c.start || now.value.start >= c.start + Span(p))
  {
    var admitted := OneMore(capacity, rs, key, p);
    hide Run, Admitted, Regular, Find, Budget;
  }

  /** Any half-open interval one window long admits less than twice the budget. */
  lemma {:induction false} SlidingBound(capacity: nat, rs: seq<Request>, key: string, p: Policy, a: int)
    requires Regular(capacity, rs, key, p)
    ensures Admitted(capacity, rs, key, a, a + Span(p)) < 2 * Budget(p)
    ensures var now := Find(Run(capacity, rs), key);
            p.windowSecs > 0 && now.Some? && now.value.start - Span(p) < a < now.value.start ==>
              Admitted(capacity, rs, key, a, now.value.start) < Budget(p)
  {
    if p.windowSecs == 0 {
      AdmittedEmpty(capacity, rs, key, a, a);
    } else if rs != [] {
      var before := rs[..|rs| - 1];
      RegularPrefix(capacity, rs, key, p);
      SlidingBound(capacity, before, key, p, a);
      CountersTally(capacity, before, key, p);
      CountersTally(capacity, rs, key, p);
      var admitted := OneMore(capacity, rs, key, p);
      var next := Find(Run(capacity, rs), key);
      if next.Some? {
        hide Run, Admitted, Regular, Find;
        AroundStart(capacity, rs, key, p, a, next.value);
      }
      hide Run, Admitted, Regular, Find;
    }
  }

  /** An interval that meets the running window from before it is split at the start. */
  lemma AroundStart(capacity: nat, rs: seq<Request>, key: string, p: Policy, a: int, c: Counter)
    requires Tally(capacity, rs, key, p) && Find(Run(capacity, rs), key) == Some(c) && p.windowSecs > 0
    ensures c.start - Span(p) < a < c.start ==>
              Admitted(capacity, rs, key, a, a + Span(p)) <= Admitted(capacity, rs, key, a, c.start) + c.count
    ensures c.start <= a ==> Admitted(capacity, rs, key, a, a + Span(p)) <= c.count
  {
    hide Run, Admitted, Find;
    if c.start - Span(p) < a < c.start {
      AdmittedSplits(capacity, rs, key, a, c.start, a + Span(p));
      AdmittedSplits(capacity, rs, key, c.start, a + Span(p), c.start + Span(p));
    }
  }

  // ----- when nothing is evicted -----

  function KeysOf(l: Counters): set<string> { if l == [] then {} else {l[0].key} + KeysOf(l[1..]) }

  lemma {:induction false} KeysOfFind(l: Counters)
    requires Distinct(l)
    ensures |KeysOf(l)| == |l| && forall k :: k in KeysOf(l) <==> Find(l, k).Some?
  {
    if l != [] { KeysOfFind(l[1..]); }
  }

  predicate KeysWithin(rs: seq<Request>, keys: set<string>) { forall i :: 0 <= i < |rs| ==> rs[i].key in keys }

  lemma {:induction false} RunKeys(capacity: nat, rs: seq<Request>, keys: set<string>)
    requires capacity > 0 && KeysWithin(rs, keys)
    ensures KeysOf(Run(capacity, rs)) <= keys
  {
    if rs != [] {
      var before, r := rs[..|rs| - 1], rs[|rs| - 1];
      RunKeys(capacity, before, keys);
      RunDistinct(capacity, before);
      RunDistinct(capacity, rs);
      KeysOfFind(Run(capacity, before));
      KeysOfFind(Run(capacity, rs));
      forall k | k in KeysOf(Run(capacity, rs)) ensures k in keys {
        ServeFind(capacity, Run(capacity, before), r, k);
      }
    }
  }

  /** A store with room for every key in use evicts none of them. */
  lemma FewKeysKept(capacity: nat, rs: seq<Request>, keys: set<string>, key: string)
    requires capacity > 0 && KeysWithin(rs, keys) && |keys| <= capacity
    ensures Kept(capacity, rs, key)
  {
    forall i | 0 <= i < |rs| && Find(Run(capacity, rs[..i]), key).Some?
      ensures Find(Run(capacity, rs[..i + 1]), key).Some?
    {
      var l := Run(capacity, rs[..i]);
      assert rs[..i + 1][..i] == rs[..i];
      RunDistinct(capacity, rs[..i]);
      RunKeys(capacity, rs[..i], keys);
      RunLast(capacity, rs[..i + 1]);
      RoomStays(capacity, l, rs[i], keys, key);
    }
  }

  lemma RoomStays(capacity: nat, l: Counters, r: Request, keys: set<string>, key: string)
    requires Distinct(l) && KeysOf(l) <= keys && r.key in keys && |keys| <= capacity && Find(l, key).Some?
    ensures Find(Serve(capacity, l, r), key).Some?
  {
    KeysOfFind(l);
    if Find(l, r.key).Some? {
      if r.Check? {
        FindStore(l, r.key, Judge(Find(l, r.key), r.policy, r.now).0, key);
      } else {
        FindStore(l, r.key, Find(l, r.key).value, key);
      }
    } else if r.Check? {
      assert KeysOf(l) <= keys - {r.key};
      SubsetSize(KeysOf(l), keys - {r.key});
      FindStore(l, r.key, Judge(None, r.policy, r.now).0, key);
    }
  }

  // ----- the bound is reached -----

  function Repeat(r: Request, n: nat): seq<Request> { if n == 0 then [] else Repeat(r, n - 1) + [r] }

  lemma AddOne(before: seq<Request>, key: string, p: Policy, now: nat)
    ensures var all := before + [Check(key, p, now)];
            var judged := Judge(Find(Run(1, before), key), p, now);
            && Find(Run(1, all), key) == Some(judged.0)
            && forall a, b :: Admitted(1, all, key, a, b)
                              == Admitted(1, before, key, a, b) + if judged.1.allowed && a <= now < b then 1 else 0
  {
    var r := Check(key, p, now);
    var all := before + [r];
    assert all[..|all| - 1] == before && all[|all| - 1] == r;
    RunDistinct(1, before);
    ServeFind(1, Run(1, before), r, key);
    RunLast(1, all);
    hide Run, Serve, Judge, Find;
  }

  lemma JudgeRoom(c: Counter, p: Policy, now: nat)
    requires c.count < EffectiveLimit(p) && !Expired(c, now)
    ensures var judged := Judge(Some(c), p, now);
            judged.0 == c.(count := c.count + 1) && judged.1.allowed
  {
  }

  /** Requests of one instant inside a running window with room are all admitted. */
  lemma {:induction false} AllAdmitted(rs: seq<Request>, key: string, p: Policy, now: nat, n: nat, c: Counter)
    requires Find(Run(1, rs), key) == Some(c) && c.count + n <= EffectiveLimit(p) && !Expired(c, now)
    ensures var all := rs + Repeat(Check(key, p, now), n);
            && Find(Run(1, all), key) == Some(c.(count := c.count + n))
            && forall a, b :: Admitted(1, all, key, a, b) == Admitted(1, rs, key, a, b) + if a <= now < b then n else 0
  {
    hide Run, Find, Admitted;
    var r := Check(key, p, now);
    if n == 0 {
      assert rs + Repeat(r, n) == rs;
    } else {
      var before := rs + Repeat(r, n - 1);
      assert rs + Repeat(r, n) == before + [r];
      AllAdmitted(rs, key, p, now, n - 1, c);
      hide Repeat;
      AddOne(before, key, p, now);
      JudgeRoom(c.(count := c.count + n - 1), p, now);
      hide Judge, Expired, EffectiveLimit;
    }
  }

  lemma {:induction false} RepeatOnly(r: Request, n: nat)
    ensures |Repeat(r, n)| == n && forall i :: 0 <= i < n ==> Repeat(r, n)[i] == r
  {
    if n > 0 { RepeatOnly(r, n - 1); }
  }

  /** Under every policy with a window, some regular run admits twice the budget less one inside one window's length:
      the bound on sliding intervals cannot be lowered. */
  lemma BoundReached(key: string, p: Policy) returns (rs: seq<Request>)
    requires p.windowSecs > 0
    ensures Regular(1, rs, key, p) && Admitted(1, rs, key, 1, 1 + Span(p)) == 2 * Budget(p) - 1
  {
    hide Run, Find, Admitted, Repeat, Regular, Kept;
    var N, W := Budget(p), Span(p);
    var none: seq<Request> := [];
    NothingYet(key);
    AddOne(none, key, p, 0);
    var first := none + [Check(key, p, 0)];
    AllAdmittedOrNone(first, key, p, W - 1, Counter(1, 0, p.windowSecs));
    var full := first + Repeat(Check(key, p, W - 1), N - 1);
    AddOne(full, key, p, W);
    var next := full + [Check(key, p, W)];
    AllAdmittedOrNone(next, key, p, W, Counter(1, W, p.windowSecs));
    rs := next + Repeat(Check(key, p, W), N - 1);
    RepeatOnly(Check(key, p, W - 1), N - 1);
    RepeatOnly(Check(key, p, W), N - 1);
    FewKeysKept(1, rs, {key}, key);
    AssembledInOrder(full, rs, key, p);
  }

  lemma NothingYet(key: string)
    ensures Find(Run(1, []), key).None? && forall a, b :: Admitted(1, [], key, a, b) == 0
  {
  }

  lemma AssembledInOrder(full: seq<Request>, rs: seq<Request>, key: string, p: Policy)
    requires p.windowSecs > 0 && full != [] && full[0] == Check(key, p, 0)
    requires forall i :: 1 <= i < |full| ==> full[i] == Check(key, p, Span(p) - 1)
    requires |full| <= |rs| && full == rs[..|full|] && forall i :: |full| <= i < |rs| ==>
        rs[i] == Check(key, p, Span(p))
    requires Kept(1, rs, key)
    ensures Regular(1, rs, key, p)
  {
    hide Kept;
    forall i | 0 <= i < |full| ensures rs[i] == full[i] {
    }
  }

  lemma AllAdmittedOrNone(rs: seq<Request>, key: string, p: Policy, now: nat, c: Counter)
    requires Find(Run(1, rs), key) == Some(c) && c.count == 1 && !Expired(c, now)
    ensures var all := rs + Repeat(Check(key, p, now), Budget(p) - 1);
            && Find(Run(1, all), key) == Some(c.(count := Budget(p)))
            && forall a, b :: Admitted(1, all, key, a, b)
                == Admitted(1, rs, key, a, b) + if a <= now < b then Budget(p) - 1 else 0
  {
    hide Run, Find, Admitted;
    if EffectiveLimit(p) == 0 {
      assert rs + Repeat(Check(key, p, now), 0) == rs;
    } else {
      AllAdmitted(rs, key, p, now, Budget(p) - 1, c);
    }
  }
}
