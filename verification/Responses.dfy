/** The response cache with stale-while-revalidate semantics: an LRU with a byte counter, expiry,
    and the election of one refresher per stale entry. Instants are nanoseconds. */
module Responses {
  import opened Base
  import opened JsonValues
  import opened Lru

  const NANOS: nat := 1_000_000_000
  const DEFAULT_MAX_ENTRY_SIZE: nat := 1_048_576
  const DEFAULT_MAX_TOTAL_SIZE: nat := 10_485_760
  const DEFAULT_SWR_GRACE_SECS: nat := 30
  const DEFAULT_REFRESH_TAKEOVER_SECS: nat := 30

  datatype Response = Response(body: Json, contentType: string, status: Option<nat>)

  datatype Entry = Entry(response: Response, freshUntil: nat, staleUntil: nat,
                         refreshStarted: Option<nat>, size: nat)

  /** `measure` is the serialized length of a body. */
  datatype Limits = Limits(capacity: nat, defaultTtl: nat, maxEntry: nat, maxTotal: nat,
                           grace: nat, takeover: nat, measure: Json -> nat)

  datatype Cache = Cache(lru: seq<Pair<Entry>>, size: nat)

  datatype Outcome = Fresh(response: Response) | Stale(response: Response) | Refresh(response: Response) | Miss

  function SaturatingSub(a: nat, b: nat): nat { if b <= a then a - b else 0 }

  /** Whole seconds between two instants, zero if they are out of order. */
  function SecondsSince(now: nat, started: nat): nat { SaturatingSub(now, started) / NANOS }

  predicate CanTakeOver(limits: Limits, e: Entry, now: nat) {
    e.refreshStarted.None? || SecondsSince(now, e.refreshStarted.value) >= limits.takeover
  }

  function LookupOutcome(limits: Limits, c: Cache, k: string, now: nat): Outcome {
    match Find(c.lru, k)
    case None => Miss
    case Some(e) =>
      if now < e.freshUntil then Fresh(e.response)
      else if now < e.staleUntil then
        if CanTakeOver(limits, e, now) then Refresh(e.response) else Stale(e.response)
      else Miss
  }

  function LookupCache(limits: Limits, c: Cache, k: string, now: nat): Cache {
    match Find(c.lru, k)
    case None => c
    case Some(e) =>
      if now < e.freshUntil then c.(lru := Lru.Store(c.lru, k, e))
      else if now < e.staleUntil then
        c.(lru := Lru.Store(c.lru, k, if CanTakeOver(limits, e, now) then e.(refreshStarted := Some(now)) else e))
      else Cache(Without(c.lru, k), SaturatingSub(c.size, e.size))
  }

  function ClearCache(c: Cache, k: string): Cache {
    match Find(c.lru, k)
    case None => c
    case Some(e) => c.(lru := Lru.Store(c.lru, k, e.(refreshStarted := None)))
  }

  /** Drop least recent entries until `need` more bytes fit, or nothing is left. */
  function Evict(limits: Limits, c: Cache, need: nat): Cache
    decreases |c.lru|
  {
    if c.size + need <= limits.maxTotal || c.lru == [] then c
    else Evict(limits, Cache(c.lru[1..], SaturatingSub(c.size, c.lru[0].value.size)), need)
  }

  function Ttl(limits: Limits, ttl: Option<nat>): nat {
    if ttl.Some? then ttl.value else limits.defaultTtl
  }

  /** Subtract the size of an entry about to be overwritten. */
  function Reclaim(c: Cache, k: string): Cache {
    match Find(c.lru, k)
    case None => c
    case Some(e) => c.(size := SaturatingSub(c.size, e.size))
  }

  function NewEntry(limits: Limits, r: Response, ttl: nat, now: nat): Entry {
    Entry(r, now + ttl * NANOS, now + (ttl + limits.grace) * NANOS, None, limits.measure(r.body))
  }

  predicate TriesPut(limits: Limits, r: Response, ttl: Option<nat>) {
    Ttl(limits, ttl) != 0 && limits.measure(r.body) <= limits.maxEntry
  }

  /** Whether a put inserts its entry. */
  predicate Accepts(limits: Limits, c: Cache, k: string, r: Response, ttl: Option<nat>) {
    && TriesPut(limits, r, ttl)
    && Evict(limits, Reclaim(c, k), limits.measure(r.body)).size + limits.measure(r.body) <= limits.maxTotal
  }

  function InsertEntry(limits: Limits, c: Cache, k: string, e: Entry): Cache {
    var out := PushedOut(c.lru, limits.capacity, k);
    var size := if out.Some? then SaturatingSub(c.size, out.value.size) else c.size;
    Cache(Push(c.lru, limits.capacity, k, e), size + e.size)
  }

  function PutCache(limits: Limits, c: Cache, k: string, r: Response, ttl: Option<nat>, now: nat): Cache {
    if !TriesPut(limits, r, ttl) then c
    else
      var roomy := Evict(limits, Reclaim(c, k), limits.measure(r.body));
      if roomy.size + limits.measure(r.body) <= limits.maxTotal
      then InsertEntry(limits, roomy, k, NewEntry(limits, r, Ttl(limits, ttl), now))
      else roomy
  }

  // ----- runs -----

  datatype Op =
    | Lookup(key: string, now: nat)
    | Put(key: string, response: Response, ttl: Option<nat>, now: nat)
    | Clear(key: string, now: nat)

  function Apply(limits: Limits, c: Cache, op: Op): Cache {
    match op
    case Lookup(k, now) => LookupCache(limits, c, k, now)
    case Put(k, r, ttl, now) => PutCache(limits, c, k, r, ttl, now)
    case Clear(k, _) => ClearCache(c, k)
  }

  function Replay(limits: Limits, c: Cache, ops: seq<Op>): Cache {
    if ops == [] then c else Apply(limits, Replay(limits, c, ops[..|ops| - 1]), ops[|ops| - 1])
  }

  const EMPTY: Cache := Cache([], 0)

  lemma {:induction false} ReplayAppend(limits: Limits, c: Cache, a: seq<Op>, b: seq<Op>)
    ensures Replay(limits, c, a + b) == Replay(limits, Replay(limits, c, a), b)
  {
    if b == [] {
      assert a + b == a;
    } else {
      assert (a + b)[..|a + b| - 1] == a + b[..|b| - 1];
      ReplayAppend(limits, c, a, b[..|b| - 1]);
    }
  }
}
