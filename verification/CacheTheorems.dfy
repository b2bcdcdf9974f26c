/** What every run of lookups, puts and clears keeps: the byte counter, the latest-put semantics
    and the refresher election. */
module CacheTheorems {
  import opened Base
  import opened JsonValues
  import opened Lru
  import opened Responses

  // ----- byte accounting -----

  /** The bytes really held. */
  function Bytes(l: seq<Pair<Entry>>): nat {
    if l == [] then 0 else l[0].value.size + Bytes(l[1..])
  }

  function SizeUnder(l: seq<Pair<Entry>>, k: string): nat {
    match Find(l, k) case None => 0 case Some(e) => e.size
  }

  predicate Accounted(limits: Limits, c: Cache) {
    && Distinct(c.lru) && |c.lru| <= limits.capacity
    && c.size <= limits.maxTotal && c.size <= Bytes(c.lru)
  }

  lemma {:induction false} BytesAppend(l: seq<Pair<Entry>>, m: seq<Pair<Entry>>)
    ensures Bytes(l + m) == Bytes(l) + Bytes(m)
  {
    if l == [] {
      assert l + m == m;
    } else {
      assert (l + m)[1..] == l[1..] + m;
      BytesAppend(l[1..], m);
    }
  }

  lemma {:induction false} BytesWithout(l: seq<Pair<Entry>>, k: string)
    requires Distinct(l)
    ensures Bytes(Without(l, k)) + SizeUnder(l, k) == Bytes(l)
  {
    if l != [] {
      BytesWithout(l[1..], k);
      if l[0].key != k { assert Without(l, k)[1..] == Without(l[1..], k); }
    }
  }

  lemma BytesStore(l: seq<Pair<Entry>>, k: string, e: Entry)
    requires Distinct(l)
    ensures Bytes(Lru.Store(l, k, e)) + SizeUnder(l, k) == Bytes(l) + e.size
  {
    BytesWithout(l, k);
    BytesAppend(Without(l, k), [Pair(k, e)]);
  }

  /** Eviction drops a prefix, charges exactly what it drops, and stops when there is room. */
  lemma {:induction false} EvictProps(limits: Limits, c: Cache, need: nat)
    requires Distinct(c.lru)
    ensures var r := Evict(limits, c, need);
            && Distinct(r.lru) && |r.lru| <= |c.lru| && Bytes(r.lru) <= Bytes(c.lru)
            && r.size == SaturatingSub(c.size, Bytes(c.lru) - Bytes(r.lru))
            && (r.lru == [] || r.size + need <= limits.maxTotal)
            && (|r.lru| == |c.lru| ==> r == c)
    decreases |c.lru|
  {
    if !(c.size + need <= limits.maxTotal || c.lru == []) {
      EvictProps(limits, Cache(c.lru[1..], SaturatingSub(c.size, c.lru[0].value.size)), need);
    }
  }

  lemma {:induction false} EvictFind(limits: Limits, c: Cache, need: nat, k: string)
    requires Distinct(c.lru)
    ensures Find(Evict(limits, c, need).lru, k).Some? ==> Find(Evict(limits, c, need).lru, k) == Find(c.lru, k)
    ensures Find(Evict(limits, c, need).lru, k).None? && Find(c.lru, k).Some?
            ==> Bytes(Evict(limits, c, need).lru) + SizeUnder(c.lru, k) <= Bytes(c.lru)
                && |Evict(limits, c, need).lru| < |c.lru|
    decreases |c.lru|
  {
    if !(c.size + need <= limits.maxTotal || c.lru == []) {
      var next := Cache(c.lru[1..], SaturatingSub(c.size, c.lru[0].value.size));
      EvictFind(limits, next, need, k);
      EvictProps(limits, next, need);
    }
  }

  lemma {:induction false} SizeUnderBound(l: seq<Pair<Entry>>, k: string)
    ensures SizeUnder(l, k) <= Bytes(l)
  {
    if l != [] { SizeUnderBound(l[1..], k); }
  }

  /** Inserting after making room charges what the push hands back and adds the new entry. */
  lemma InsertBytes(limits: Limits, c: Cache, k: string, e: Entry)
    requires Distinct(c.lru) && 0 < limits.capacity && |c.lru| <= limits.capacity
    ensures var out := PushedOut(c.lru, limits.capacity, k);
            var gone := if out.Some? then out.value.size else 0;
            && gone <= Bytes(c.lru)
            && Bytes(InsertEntry(limits, c, k, e).lru) == Bytes(c.lru) - gone + e.size
            && InsertEntry(limits, c, k, e).size == SaturatingSub(c.size, gone) + e.size
  {
    BytesStore(MakeRoom(c.lru, limits.capacity, k), k, e);
    SizeUnderBound(c.lru, k);
  }

  lemma PutAccounted(limits: Limits, c: Cache, k: string, r: Response, ttl: Option<nat>, now: nat)
    requires Accounted(limits, c) && 0 < limits.capacity
    ensures Accounted(limits, PutCache(limits, c, k, r, ttl, now))
    ensures c.size == Bytes(c.lru) && Find(c.lru, k).None?
            ==> PutCache(limits, c, k, r, ttl, now).size == Bytes(PutCache(limits, c, k, r, ttl, now).lru)
  {
    if TriesPut(limits, r, ttl) {
      var need := limits.measure(r.body);
      var roomy := Evict(limits, Reclaim(c, k), need);
      EvictProps(limits, Reclaim(c, k), need);
      EvictFind(limits, Reclaim(c, k), need, k);
      if roomy.size + need <= limits.maxTotal {
        var e := NewEntry(limits, r, Ttl(limits, ttl), now);
        InsertBytes(limits, roomy, k, e);
        PushProps(roomy.lru, limits.capacity, k, e);
      }
    }
  }

  lemma ApplyAccounted(limits: Limits, c: Cache, op: Op)
    requires Accounted(limits, c) && 0 < limits.capacity
    ensures Accounted(limits, Apply(limits, c, op))
    ensures c.size == Bytes(c.lru) && !(op.Put? && Find(c.lru, op.key).Some?)
            ==> Apply(limits, c, op).size == Bytes(Apply(limits, c, op).lru)
  {
    match op
    case Put(k, r, ttl, now) => PutAccounted(limits, c, k, r, ttl, now);
    case Lookup(k, now) =>
      if Find(c.lru, k).Some? {
        var e := Find(c.lru, k).value;
        var taken := e.(refreshStarted := Some(now));
        StoreProps(c.lru, k, e);
        BytesStore(c.lru, k, e);
        StoreProps(c.lru, k, taken);
        BytesStore(c.lru, k, taken);
        WithoutProps(c.lru, k);
        BytesWithout(c.lru, k);
      }
    case Clear(k, now) =>
      if Find(c.lru, k).Some? {
        var e := Find(c.lru, k).value.(refreshStarted := None);
        StoreProps(c.lru, k, e);
        BytesStore(c.lru, k, e);
      }
  }

  /** In every run the counter stays within the limit and never overstates the bytes held. */
  lemma {:induction false} CounterBounded(limits: Limits, ops: seq<Op>)
    requires 0 < limits.capacity
    ensures var c := Replay(limits, EMPTY, ops);
            c.size <= limits.maxTotal && c.size <= Bytes(c.lru)
            && Distinct(c.lru) && |c.lru| <= limits.capacity
  {
    if ops != [] {
      CounterBounded(limits, ops[..|ops| - 1]);
      ApplyAccounted(limits, Replay(limits, EMPTY, ops[..|ops| - 1]), ops[|ops| - 1]);
    }
  }

  /** No put of the run targets a key that is live at that moment. */
  ghost predicate NoLiveOverwrite(limits: Limits, ops: seq<Op>) {
    forall i :: 0 <= i < |ops| && ops[i].Put? ==> Find(Replay(limits, EMPTY, ops[..i]).lru, ops[i].key).None?
  }

  /** Without live overwrites the counter is exact. */
  lemma {:induction false} CounterExact(limits: Limits, ops: seq<Op>)
    requires 0 < limits.capacity && NoLiveOverwrite(limits, ops)
    ensures Replay(limits, EMPTY, ops).size == Bytes(Replay(limits, EMPTY, ops).lru)
  {
    if ops != [] {
      var front := ops[..|ops| - 1];
      assert forall i :: 0 <= i < |front| ==> front[..i] == ops[..i];
      CounterExact(limits, front);
      CounterBounded(limits, front);
      ApplyAccounted(limits, Replay(limits, EMPTY, front), ops[|ops| - 1]);
    }
  }

  predicate Exact(c: Cache) { c.size == Bytes(c.lru) }

  /** The bytes of other keys that making room for a put under `k` will leave. */
  function Survivors(limits: Limits, c: Cache, k: string, r: Response): nat {
    Bytes(Without(Evict(limits, Reclaim(c, k), limits.measure(r.body)).lru, k))
  }

  /** An accepted put to a live, non-empty entry that leaves other bytes behind. */
  predicate Drifts(limits: Limits, c: Cache, op: Op) {
    && op.Put? && SizeUnder(c.lru, op.key) != 0
    && Accepts(limits, c, op.key, op.response, op.ttl) && Survivors(limits, c, op.key, op.response) != 0
  }

  /** Overwriting a live key subtracts its old size twice: an accepted put leaves an exact counter short by the old
      size, as far as other bytes survive the put. */
  lemma OverwriteDrift(limits: Limits, c: Cache, k: string, r: Response, ttl: Option<nat>, now: nat)
    requires Accounted(limits, c) && 0 < limits.capacity && Exact(c)
    requires Find(c.lru, k).Some? && Accepts(limits, c, k, r, ttl)
    ensures var after := PutCache(limits, c, k, r, ttl, now);
            var held, others := SizeUnder(c.lru, k), Survivors(limits, c, k, r);
            Bytes(after.lru) - after.size == if held <= others then held else others
  {
    var need := limits.measure(r.body);
    var reclaimed := Reclaim(c, k);
    var roomy := Evict(limits, reclaimed, need);
    SizeUnderBound(c.lru, k);
    EvictProps(limits, reclaimed, need);
    EvictFind(limits, reclaimed, need, k);
    var e := NewEntry(limits, r, Ttl(limits, ttl), now);
    InsertBytes(limits, roomy, k, e);
    PushProps(roomy.lru, limits.capacity, k, e);
    BytesWithout(roomy.lru, k);
  }

  /** A put that finds no room even in an empty store leaves the store empty. */
  lemma RefusedPut(limits: Limits, c: Cache, k: string, r: Response, ttl: Option<nat>, now: nat)
    requires Accounted(limits, c) && Exact(c) && !Accepts(limits, c, k, r, ttl)
    ensures Exact(PutCache(limits, c, k, r, ttl, now))
  {
    EvictProps(limits, Reclaim(c, k), limits.measure(r.body));
  }

  /** From an exact counter, exactly the drifting operations lose exactness. */
  lemma ExactStep(limits: Limits, c: Cache, op: Op)
    requires Accounted(limits, c) && 0 < limits.capacity && Exact(c)
    ensures Exact(Apply(limits, c, op)) <==> !Drifts(limits, c, op)
  {
    hide Evict, Reclaim;
    ApplyAccounted(limits, c, op);
    if op.Put? && Find(c.lru, op.key).Some? {
      if Accepts(limits, c, op.key, op.response, op.ttl) {
        OverwriteDrift(limits, c, op.key, op.response, op.ttl, op.now);
      } else {
        RefusedPut(limits, c, op.key, op.response, op.ttl, op.now);
      }
    }
  }

  ghost predicate ExactThroughout(limits: Limits, ops: seq<Op>) {
    forall n :: 0 <= n <= |ops| ==> Exact(Replay(limits, EMPTY, ops[..n]))
  }

  ghost predicate NeverDrifts(limits: Limits, ops: seq<Op>) {
    forall n :: 0 <= n < |ops| ==> !Drifts(limits, Replay(limits, EMPTY, ops[..n]), ops[n])
  }

  lemma ThroughoutSnoc(limits: Limits, ops: seq<Op>)
    requires ops != []
    ensures var front := ops[..|ops| - 1];
            && (ExactThroughout(limits, ops) <==> ExactThroughout(limits, front) && Exact(Replay(limits, EMPTY, ops)))
            && (NeverDrifts(limits, ops) <==>
                  NeverDrifts(limits, front) && !Drifts(limits, Replay(limits, EMPTY, front), ops[|ops| - 1]))
            && (ExactThroughout(limits, front) ==> Exact(Replay(limits, EMPTY, front)))
  {
    hide Replay, Exact, Drifts;
    var front := ops[..|ops| - 1];
    assert forall n :: 0 <= n <= |front| ==> front[..n] == ops[..n];
    assert ops[..|ops|] == ops && front[..|front|] == front;
  }

  /** Over whole runs the counter is exact throughout if and only if no operation of the run drifts. */
  lemma {:induction false} CounterExactIff(limits: Limits, ops: seq<Op>)
    requires 0 < limits.capacity
    ensures ExactThroughout(limits, ops) <==> NeverDrifts(limits, ops)
  {
    if ops == [] {
      assert ops[..0] == [];
    } else {
      var front := ops[..|ops| - 1];
      CounterExactIff(limits, front);
      ThroughoutSnoc(limits, ops);
      AccountedAlways(limits, front);
      hide ExactThroughout, NeverDrifts, Exact, Drifts, Apply;
      var before := Replay(limits, EMPTY, front);
      if Exact(before) { ExactStep(limits, before, ops[|ops| - 1]); }
    }
  }

  /** A put of a new key that fits goes to the end and is counted. */
  lemma FreshPut(limits: Limits, c: Cache, k: string, r: Response, ttl: Option<nat>, now: nat)
    requires TriesPut(limits, r, ttl) && Find(c.lru, k).None? && |c.lru| < limits.capacity
    requires c.size + limits.measure(r.body) <= limits.maxTotal
    ensures PutCache(limits, c, k, r, ttl, now)
         == Cache(c.lru + [Pair(k, NewEntry(limits, r, Ttl(limits, ttl), now))], c.size + limits.measure(r.body))
  {
    WithoutAbsent(c.lru, k);
  }

  lemma {:induction false} WithoutAbsent(l: seq<Pair<Entry>>, k: string)
    requires Find(l, k).None?
    ensures Without(l, k) == l
  {
    if l != [] { WithoutAbsent(l[1..], k); }
  }

  /** Four puts of five bytes each, one of them an overwrite, leave fifteen bytes stored under a limit of ten. */
  lemma OverfullRun(r: Response)
    ensures var limits := Limits(8, 60, 5, 10, 30, 30, (j: Json) => 5);
            var c := Replay(limits, EMPTY, [Put("a", r, None, 0), Put("b", r, None, 0), Put("a", r, None, 0),
                                            Put("c", r, None, 0)]);
            c.size == 10 == limits.maxTotal && Bytes(c.lru) == 15
  {
    var limits := Limits(8, 60, 5, 10, 30, 30, (j: Json) => 5);
    var a, b, c := Put("a", r, None, 0), Put("b", r, None, 0), Put("c", r, None, 0);
    var e := NewEntry(limits, r, 60, 0);
    FreshPut(limits, EMPTY, "a", r, None, 0);
    var c1 := Cache([] + [Pair("a", e)], 5);
    FreshPut(limits, c1, "b", r, None, 0);
    var c2 := Cache(c1.lru + [Pair("b", e)], 10);
    assert c2.lru[1..] == [Pair("b", e)] && [Pair("b", e)][1..] == [];
    assert Without([Pair("b", e)], "a") == [Pair("b", e)];
    var c3 := Cache([Pair("b", e)] + [Pair("a", e)], 5);
    assert PutCache(limits, c2, "a", r, None, 0) == c3;
    assert c3.lru[1..] == [Pair("a", e)] && [Pair("a", e)][1..] == [];
    FindAppend([Pair("b", e)], [Pair("a", e)], "c");
    FreshPut(limits, c3, "c", r, None, 0);
    var c4 := Cache(c3.lru + [Pair("c", e)], 10);
    ReplayFour(limits, a, b, a, c, c1, c2, c3, c4);
    BytesAppend(c3.lru, [Pair("c", e)]);
    BytesAppend([Pair("b", e)], [Pair("a", e)]);
  }

  lemma ReplayFour(limits: Limits, a: Op, b: Op, c: Op, d: Op, c1: Cache, c2: Cache, c3: Cache, c4: Cache)
    requires Apply(limits, EMPTY, a) == c1 && Apply(limits, c1, b) == c2
    requires Apply(limits, c2, c) == c3 && Apply(limits, c3, d) == c4
    ensures Replay(limits, EMPTY, [a, b, c, d]) == c4
  {
    hide Apply;
    assert [a, b, c, d] == [a, b, c] + [d] && [a, b, c] == [a, b] + [c] && [a, b] == [a] + [b] && [a] == [] + [a];
    ReplayOne(limits, [], a);
    ReplayOne(limits, [a], b);
    ReplayOne(limits, [a, b], c);
    ReplayOne(limits, [a, b, c], d);
  }

  // ----- refinement of a plain timestamped map -----

  datatype Record = Record(response: Response, at: nat, ttl: nat)

  /** The reference: the most recent accepted put per key. No recency, no sizes, no removal. */
  function Ledger(limits: Limits, ops: seq<Op>): map<string, Record> {
    if ops == [] then map[]
    else
      var before := Ledger(limits, ops[..|ops| - 1]);
      var op := ops[|ops| - 1];
      if op.Put? && Accepts(limits, Replay(limits, EMPTY, ops[..|ops| - 1]), op.key, op.response, op.ttl)
      then before[op.key := Record(op.response, op.now, Ttl(limits, op.ttl))]
      else before
  }

  predicate Matches(limits: Limits, e: Entry, rec: Record) {
    && e.response == rec.response
    && e.freshUntil == rec.at + rec.ttl * NANOS
    && e.staleUntil == rec.at + (rec.ttl + limits.grace) * NANOS
  }

  ghost predicate Refines(limits: Limits, c: Cache, ledger: map<string, Record>) {
    && Distinct(c.lru)
    && forall k :: Find(c.lru, k).Some? ==> k in ledger && Matches(limits, Find(c.lru, k).value, ledger[k])
  }

  lemma PutRefines(limits: Limits, c: Cache, k: string, r: Response, ttl: Option<nat>, now: nat,
                   ledger: map<string, Record>)
    requires Refines(limits, c, ledger) && Accounted(limits, c) && 0 < limits.capacity
    ensures Refines(limits, PutCache(limits, c, k, r, ttl, now),
                    if Accepts(limits, c, k, r, ttl) then ledger[k := Record(r, now, Ttl(limits, ttl))] else ledger)
  {
    PutAccounted(limits, c, k, r, ttl, now);
    if TriesPut(limits, r, ttl) {
      var need := limits.measure(r.body);
      var roomy := Evict(limits, Reclaim(c, k), need);
      EvictProps(limits, Reclaim(c, k), need);
      var e := NewEntry(limits, r, Ttl(limits, ttl), now);
      forall other
        ensures Find(roomy.lru, other).Some? ==> Find(roomy.lru, other) == Find(c.lru, other)
        ensures other == k ==> Find(Push(roomy.lru, limits.capacity, k, e), other) == Some(e)
        ensures other != k && Find(Push(roomy.lru, limits.capacity, k, e), other).Some?
                ==> Find(Push(roomy.lru, limits.capacity, k, e), other) == Find(roomy.lru, other)
      {
        EvictFind(limits, Reclaim(c, k), need, other);
        FindPush(roomy.lru, limits.capacity, k, e, other);
      }
    }
  }

  lemma StoreRefines(limits: Limits, c: Cache, k: string, e: Entry, ledger: map<string, Record>)
    requires Refines(limits, c, ledger)
    requires k in ledger && Matches(limits, e, ledger[k])
    ensures Refines(limits, c.(lru := Lru.Store(c.lru, k, e)), ledger)
  {
    StoreProps(c.lru, k, e);
    forall other ensures Find(Lru.Store(c.lru, k, e), other) == if other == k then Some(e) else Find(c.lru, other) {
      FindStore(c.lru, k, e, other);
    }
  }

  lemma ApplyRefines(limits: Limits, c: Cache, op: Op, ledger: map<string, Record>)
    requires Refines(limits, c, ledger) && Accounted(limits, c) && 0 < limits.capacity
    ensures Refines(limits, Apply(limits, c, op),
                    if op.Put? && Accepts(limits, c, op.key, op.response, op.ttl)
                    then ledger[op.key := Record(op.response, op.now, Ttl(limits, op.ttl))] else ledger)
  {
    match op
    case Put(k, r, ttl, now) => PutRefines(limits, c, k, r, ttl, now, ledger);
    case Lookup(k, now) =>
      if Find(c.lru, k).Some? {
        var e := Find(c.lru, k).value;
        StoreRefines(limits, c, k, e, ledger);
        StoreRefines(limits, c, k, e.(refreshStarted := Some(now)), ledger);
        WithoutProps(c.lru, k);
        forall other ensures Find(Without(c.lru, k), other).Some? ==>
            Find(Without(c.lru, k), other) == Find(c.lru, other) {
          FindWithout(c.lru, k, other);
        }
      }
    case Clear(k, now) =>
      if Find(c.lru, k).Some? {
        StoreRefines(limits, c, k, Find(c.lru, k).value.(refreshStarted := None), ledger);
      }
  }

  lemma {:induction false} ReplayRefines(limits: Limits, ops: seq<Op>)
    requires 0 < limits.capacity
    ensures Refines(limits, Replay(limits, EMPTY, ops), Ledger(limits, ops))
  {
    if ops != [] {
      var front := ops[..|ops| - 1];
      ReplayRefines(limits, front);
      CounterBounded(limits, front);
      ApplyRefines(limits, Replay(limits, EMPTY, front), ops[|ops| - 1], Ledger(limits, front));
    }
  }

  /** After any run, a lookup is a miss or serves the latest accepted put of its key: fresh exactly
      before the TTL ends, stale exactly during the grace window, and nothing afterwards. */
  lemma LookupServesLatestPut(limits: Limits, ops: seq<Op>, k: string, now: nat)
    requires 0 < limits.capacity
    ensures var out := LookupOutcome(limits, Replay(limits, EMPTY, ops), k, now);
            var ledger := Ledger(limits, ops);
            && (!out.Miss? ==> k in ledger && out.response == ledger[k].response)
            && (out.Fresh? ==> now < ledger[k].at + ledger[k].ttl * NANOS)
            && (out.Stale? || out.Refresh? ==>
                  ledger[k].at + ledger[k].ttl * NANOS <= now
                  < ledger[k].at + (ledger[k].ttl + limits.grace) * NANOS)
            && (out.Miss? && Find(Replay(limits, EMPTY, ops).lru, k).Some? ==>
                  k in ledger && ledger[k].at + (ledger[k].ttl + limits.grace) * NANOS <= now)
  {
    ReplayRefines(limits, ops);
  }

  /** The op puts a new entry under `k`. */
  predicate Replaces(limits: Limits, c: Cache, op: Op, k: string) {
    op.Put? && op.key == k && Accepts(limits, c, k, op.response, op.ttl)
  }

  /** `late` extends the run `early` without a new entry under `k`. */
  ghost predicate Unreplaced(limits: Limits, early: seq<Op>, late: seq<Op>, k: string)
    decreases |late|
  {
    || early == late
    || (&& early <= late
        && !Replaces(limits, Replay(limits, EMPTY, late[..|late| - 1]), late[|late| - 1], k)
        && Unreplaced(limits, early, late[..|late| - 1], k))
  }

  /** The latest put of an unreplaced key stays the latest. */
  lemma {:induction false} LedgerKeeps(limits: Limits, early: seq<Op>, late: seq<Op>, k: string)
    requires Unreplaced(limits, early, late, k) && k in Ledger(limits, early)
    ensures k in Ledger(limits, late) && Ledger(limits, late)[k] == Ledger(limits, early)[k]
    decreases |late|
  {
    hide Accepts, Replay;
    if early != late { LedgerKeeps(limits, early, late[..|late| - 1], k); }
  }

  // ----- election of a refresher -----

  /** A lookup of `k` at `now`, made after the run `ops`, is told to refresh. */
  predicate Elects(limits: Limits, ops: seq<Op>, k: string, now: nat) {
    LookupOutcome(limits, Replay(limits, EMPTY, ops), k, now).Refresh?
  }

  /** After `early`, the entry under `k` is neither replaced nor has its slot freed, and the clock has passed
      `since`. */
  ghost predicate Undisturbed(limits: Limits, early: seq<Op>, late: seq<Op>, k: string, since: nat) {
    && Unreplaced(limits, early, late, k)
    && early <= late
    && forall m :: |early| <= m < |late| ==> !(late[m].Clear? && late[m].key == k) && since <= late[m].now
  }

  /** The entry under `k` is gone, or its slot was taken no earlier than `since`. */
  predicate SlotTaken(c: Cache, k: string, since: nat) {
    match Find(c.lru, k)
    case None => true
    case Some(e) => e.refreshStarted.Some? && since <= e.refreshStarted.value
  }

  lemma SlotStep(limits: Limits, c: Cache, op: Op, k: string, since: nat)
    requires Accounted(limits, c) && 0 < limits.capacity
    requires !Replaces(limits, c, op, k) && !(op.Clear? && op.key == k)
    requires SlotTaken(c, k, since) && since <= op.now
    ensures SlotTaken(Apply(limits, c, op), k, since)
  {
    match op
    case Put(key, r, ttl, now) =>
      if TriesPut(limits, r, ttl) {
        var need := limits.measure(r.body);
        EvictProps(limits, Reclaim(c, key), need);
        EvictFind(limits, Reclaim(c, key), need, k);
        FindPush(Evict(limits, Reclaim(c, key), need).lru, limits.capacity, key,
                 NewEntry(limits, r, Ttl(limits, ttl), now), k);
      }
    case Lookup(key, now) =>
      if Find(c.lru, key).Some? {
        var e := Find(c.lru, key).value;
        FindStore(c.lru, key, e, k);
        FindStore(c.lru, key, e.(refreshStarted := Some(now)), k);
        FindWithout(c.lru, key, k);
      }
    case Clear(key, now) =>
      if Find(c.lru, key).Some? {
        FindStore(c.lru, key, Find(c.lru, key).value.(refreshStarted := None), k);
      }
  }

  lemma ElectionTakesSlot(limits: Limits, c: Cache, k: string, now: nat)
    requires LookupOutcome(limits, c, k, now).Refresh?
    ensures SlotTaken(LookupCache(limits, c, k, now), k, now)
  {
    FindStore(c.lru, k, Find(c.lru, k).value.(refreshStarted := Some(now)), k);
  }

  lemma {:induction false} SlotHeld(limits: Limits, early: seq<Op>, late: seq<Op>, k: string, since: nat)
    requires 0 < limits.capacity && SlotTaken(Replay(limits, EMPTY, early), k, since)
    requires Undisturbed(limits, early, late, k, since)
    ensures SlotTaken(Replay(limits, EMPTY, late), k, since)
    decreases |late|
  {
    hide Apply, Accounted, Replaces, SlotTaken;
    if early != late {
      var front := late[..|late| - 1];
      SlotHeld(limits, early, front, k, since);
      CounterBounded(limits, front);
      AccountedAlways(limits, front);
      SlotStep(limits, Replay(limits, EMPTY, front), late[|late| - 1], k, since);
    }
  }

  lemma AccountedAlways(limits: Limits, ops: seq<Op>)
    requires 0 < limits.capacity
    ensures Accounted(limits, Replay(limits, EMPTY, ops))
  {
    CounterBounded(limits, ops);
  }

  /** Two elections for one undisturbed entry are at least the takeover time apart, and two are only
      possible when the takeover time is shorter than the grace window. */
  lemma RefreshersApart(limits: Limits, before: seq<Op>, late: seq<Op>, k: string, first: nat, second: nat)
    requires 0 < limits.capacity && Elects(limits, before, k, first)
    requires Undisturbed(limits, before + [Lookup(k, first)], late, k, first)
    requires Elects(limits, late, k, second) && first <= second
    ensures first + limits.takeover * NANOS <= second
    ensures limits.takeover < limits.grace
  {
    hide Replay, Ledger, Unreplaced, LookupCache;
    var early := before + [Lookup(k, first)];
    ReplayOne(limits, before, Lookup(k, first));
    ElectionTakesSlot(limits, Replay(limits, EMPTY, before), k, first);
    SlotHeld(limits, early, late, k, first);
    var started := Find(Replay(limits, EMPTY, late).lru, k).value.refreshStarted.value;
    assert SecondsSince(second, started) >= limits.takeover;
    LookupServesLatestPut(limits, before, k, first);
    LookupServesLatestPut(limits, late, k, second);
    LedgerKeeps(limits, early, late, k);
  }

  lemma ReplayOne(limits: Limits, ops: seq<Op>, op: Op)
    ensures Replay(limits, EMPTY, ops + [op]) == Apply(limits, Replay(limits, EMPTY, ops), op)
    ensures !op.Put? ==> Ledger(limits, ops + [op]) == Ledger(limits, ops)
  {
    assert (ops + [op])[..|ops|] == ops;
  }

  /** With a takeover time no shorter than the grace window, an entry elects one refresher in its life. */
  lemma OneRefresherPerEntry(limits: Limits, before: seq<Op>, late: seq<Op>, k: string, first: nat, second: nat)
    requires 0 < limits.capacity && limits.grace <= limits.takeover && Elects(limits, before, k, first)
    requires Undisturbed(limits, before + [Lookup(k, first)], late, k, first) && first <= second
    ensures !Elects(limits, late, k, second)
  {
    if Elects(limits, late, k, second) {
      RefreshersApart(limits, before, late, k, first, second);
      assert false;
    }
  }
}
