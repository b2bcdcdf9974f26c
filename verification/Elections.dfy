/** What the store does to its entries: who is elected to refresh one, which one goes first, and what a put leaves. */
module Elections {
  import opened Base
  import opened JsonValues
  import opened Lru
  import opened Responses
  import opened CacheTheorems

  // ----- places in the store -----

  /** The entry under `k` stands at `i`, the only one of that key. */
  predicate StandsAt(l: seq<Pair<Entry>>, k: string, e: Entry, i: nat) {
    i < |l| && l[i] == Pair(k, e) && forall j :: 0 <= j < |l| && l[j].key == k ==> j == i
  }

  predicate Absent(l: seq<Pair<Entry>>, k: string) { forall i :: 0 <= i < |l| ==> l[i].key != k }

  lemma {:induction false} AbsentMeans(l: seq<Pair<Entry>>, k: string)
    ensures Find(l, k) == None <==> Absent(l, k)
  {
    if l != [] {
      AbsentMeans(l[1..], k);
      if Absent(l, k) { assert forall i :: 0 <= i < |l[1..]| ==> l[1..][i] == l[i + 1]; }
      else if l[0].key != k {
        var i :| 0 <= i < |l| && l[i].key == k;
        assert l[1..][i - 1] == l[i];
      }
    }
  }

  lemma {:induction false} StandsMeans(l: seq<Pair<Entry>>, k: string, e: Entry, i: nat)
    requires StandsAt(l, k, e, i)
    ensures Find(l, k) == Some(e) && Without(l, k) == l[..i] + l[i + 1..]
  {
    if i == 0 {
      AbsentTail(l, k, 1);
      AbsentMeans(l[1..], k);
      WithoutAbsent(l[1..], k);
    } else {
      assert l[0].key != k;
      StandsTail(l, k, e, i);
      StandsMeans(l[1..], k, e, i - 1);
      hide StandsAt;
      assert l[..i] == [l[0]] + l[1..][..i - 1];
      assert l[i + 1..] == l[1..][i..];
      assert [l[0]] + (l[1..][..i - 1] + l[1..][i..]) == l[..i] + l[i + 1..];
    }
  }

  lemma AbsentTail(l: seq<Pair<Entry>>, k: string, n: nat)
    requires n <= |l|
    ensures Absent(l[n..], k) <==> forall i :: n <= i < |l| ==> l[i].key != k
  {
    assert forall i :: n <= i < |l| ==> l[i] == l[n..][i - n];
  }

  lemma StandsTail(l: seq<Pair<Entry>>, k: string, e: Entry, i: nat)
    requires StandsAt(l, k, e, i) && i > 0
    ensures StandsAt(l[1..], k, e, i - 1)
  {
    assert forall j :: 0 <= j < |l[1..]| ==> l[1..][j] == l[j + 1];
  }

  /** Every stored key has its place. */
  lemma {:induction false} PlaceOf(l: seq<Pair<Entry>>, k: string) returns (i: nat)
    requires Distinct(l) && Find(l, k).Some?
    ensures StandsAt(l, k, Find(l, k).value, i)
  {
    if l[0].key == k {
      i := 0;
      AbsentMeans(l[1..], k);
      assert forall j :: 0 < j < |l| ==> l[j] == l[1..][j - 1];
    } else {
      i := PlaceOf(l[1..], k);
      assert l[i + 1] == l[1..][i];
      forall j | 0 <= j < |l| && l[j].key == k ensures j == i + 1 { assert l[1..][j - 1] == l[j]; }
      i := i + 1;
    }
  }

  /** The entry moves from its place to the end, changed to `e`; the others keep their order. */
  predicate MovedToEnd(before: seq<Pair<Entry>>, i: nat, e: Entry, after: seq<Pair<Entry>>) {
    i < |before| && after == before[..i] + before[i + 1..] + [Pair(before[i].key, e)]
  }

  // ----- one lookup -----

  /** A slot may be taken if nobody holds it, or its holder started at least the takeover time ago. */
  predicate SlotOpen(limits: Limits, e: Entry, now: nat) {
    match e.refreshStarted
    case None => true
    case Some(started) => limits.takeover == 0 || started + limits.takeover * NANOS <= now
  }

  lemma SecondsReach(now: nat, started: nat, secs: nat)
    ensures SecondsSince(now, started) >= secs <==> secs == 0 || started + secs * NANOS <= now
  {
  }

  /** A lookup of a stored entry, case by case. Within the grace window it is told to refresh if and only if the slot is
      open, and then it holds the slot from that moment on; it is told stale otherwise. Any hit makes the entry the most
      recent; past the grace window the entry is dropped and its size given back. */
  lemma LookupDecides(limits: Limits, c: Cache, k: string, e: Entry, i: nat, now: nat)
    requires StandsAt(c.lru, k, e, i)
    ensures var out, after := LookupOutcome(limits, c, k, now), LookupCache(limits, c, k, now);
            if now < e.freshUntil then
              out == Fresh(e.response) && MovedToEnd(c.lru, i, e, after.lru) && after.size == c.size
            else if now < e.staleUntil then
              && out == (if SlotOpen(limits, e, now) then Refresh(e.response) else Stale(e.response))
              && MovedToEnd(c.lru, i, if SlotOpen(limits, e, now) then e.(refreshStarted := Some(now)) else e,
                            after.lru)
              && after.size == c.size
            else out == Miss && after.lru == c.lru[..i] + c.lru[i + 1..]
                 && after.size == if e.size <= c.size then c.size - e.size else 0
  {
    StandsMeans(c.lru, k, e, i);
    if e.refreshStarted.Some? { SecondsReach(now, e.refreshStarted.value, limits.takeover); }
    hide Without, Find, SecondsSince;
  }

  /** A lookup of a key that is not stored is a miss and changes nothing. */
  lemma LookupMisses(limits: Limits, c: Cache, k: string, now: nat)
    requires Absent(c.lru, k)
    ensures LookupOutcome(limits, c, k, now) == Miss && LookupCache(limits, c, k, now) == c
  {
    AbsentMeans(c.lru, k);
  }

  /** Clearing frees the slot of that key, which becomes the most recent; an unknown key changes nothing. */
  lemma ClearFrees(c: Cache, k: string, e: Entry, i: nat)
    ensures Absent(c.lru, k) ==> ClearCache(c, k) == c
    ensures StandsAt(c.lru, k, e, i) ==>
              MovedToEnd(c.lru, i, e.(refreshStarted := None), ClearCache(c, k).lru) && ClearCache(c, k).size == c.size
  {
    AbsentMeans(c.lru, k);
    if StandsAt(c.lru, k, e, i) { StandsMeans(c.lru, k, e, i); }
    hide Without, Find;
  }

  // ----- elections over runs -----

  /** When the slot of `k` was last won and not given back: by a lookup told to refresh, until a clear of the key or an
      accepted put under it. */
  function Holder(limits: Limits, ops: seq<Op>, k: string): Option<nat> {
    if ops == [] then None
    else
      var front, op := ops[..|ops| - 1], ops[|ops| - 1];
      if op.key != k then Holder(limits, front, k)
      else match op
        case Clear(_, _) => None
        case Put(_, r, ttl, _) =>
          if Accepts(limits, Replay(limits, EMPTY, front), k, r, ttl) then None else Holder(limits, front, k)
        case Lookup(_, now) => if Elects(limits, front, k, now) then Some(now) else Holder(limits, front, k)
  }

  lemma OthersKeepEntry(limits: Limits, c: Cache, op: Op, k: string)
    requires Accounted(limits, c) && 0 < limits.capacity && !Replaces(limits, c, op, k)
    requires op.key != k || op.Put?
    ensures var after := Apply(limits, c, op);
            Find(after.lru, k).Some? ==> Find(after.lru, k) == Find(c.lru, k)
  {
    match op
    case Put(key, r, ttl, now) =>
      if TriesPut(limits, r, ttl) {
        var need := limits.measure(r.body);
        EvictProps(limits, Reclaim(c, key), need);
        EvictFind(limits, Reclaim(c, key), need, k);
        FindPush(Evict(limits, Reclaim(c, key), need).lru, limits.capacity, key,
                 NewEntry(limits, r, Ttl(limits, ttl), now), k);
      }
    case Lookup(key, now) =>
      if Find(c.lru, key).Some? {
        var e := Find(c.lru, key).value;
        FindStore(c.lru, key, e, k);
        FindStore(c.lru, key, e.(refreshStarted := Some(now)), k);
        FindWithout(c.lru, key, k);
      }
    case Clear(key, now) =>
      if Find(c.lru, key).Some? {
        FindStore(c.lru, key, Find(c.lru, key).value.(refreshStarted := None), k);
      }
  }

  lemma OwnOp(limits: Limits, c: Cache, op: Op, k: string)
    requires Accounted(limits, c) && 0 < limits.capacity && op.key == k && !op.Put?
    requires Find(Apply(limits, c, op).lru, k).Some?
    ensures Find(c.lru, k).Some?
    ensures Find(Apply(limits, c, op).lru, k).value.refreshStarted ==
            if op.Clear? then None
            else if LookupOutcome(limits, c, k, op.now).Refresh? then Some(op.now)
            else Find(c.lru, k).value.refreshStarted
  {
    if Find(c.lru, k).Some? {
      var e := Find(c.lru, k).value;
      FindStore(c.lru, k, e, k);
      FindStore(c.lru, k, e.(refreshStarted := Some(op.now)), k);
      FindStore(c.lru, k, e.(refreshStarted := None), k);
      FindWithout(c.lru, k, k);
    }
  }

  lemma AcceptedPut(limits: Limits, c: Cache, k: string, r: Response, ttl: Option<nat>, now: nat)
    requires Accounted(limits, c) && 0 < limits.capacity && Accepts(limits, c, k, r, ttl)
    ensures Find(PutCache(limits, c, k, r, ttl, now).lru, k) == Some(NewEntry(limits, r, Ttl(limits, ttl), now))
  {
    var need := limits.measure(r.body);
    EvictProps(limits, Reclaim(c, k), need);
    FindPush(Evict(limits, Reclaim(c, k), need).lru, limits.capacity, k, NewEntry(limits, r, Ttl(limits, ttl), now), k);
  }

  /** Whoever holds the slot of a stored entry is the lookup that won it last. */
  lemma {:induction false} HolderHolds(limits: Limits, ops: seq<Op>, k: string)
    requires 0 < limits.capacity && Find(Replay(limits, EMPTY, ops).lru, k).Some?
    ensures Find(Replay(limits, EMPTY, ops).lru, k).value.refreshStarted == Holder(limits, ops, k)
  {
    if ops != [] {
      var front, op := ops[..|ops| - 1], ops[|ops| - 1];
      var c := Replay(limits, EMPTY, front);
      AccountedAlways(limits, front);
      if Replaces(limits, c, op, k) {
        AcceptedPut(limits, c, k, op.response, op.ttl, op.now);
      } else if op.key == k && !op.Put? {
        OwnOp(limits, c, op, k);
        HolderHolds(limits, front, k);
      } else {
        OthersKeepEntry(limits, c, op, k);
        HolderHolds(limits, front, k);
      }
    }
  }

  /** After any run, a lookup that finds the latest put of its key within the grace window is elected if and only if
      nobody won the slot since that put and the last clear, or the last one who did was at least the takeover time ago;
      and then it is the holder. */
  lemma ElectionDecided(limits: Limits, ops: seq<Op>, k: string, now: nat)
    requires 0 < limits.capacity && Find(Replay(limits, EMPTY, ops).lru, k).Some?
    requires var put := Ledger(limits, ops);
             k in put && put[k].at + put[k].ttl * NANOS <= now < put[k].at + (put[k].ttl + limits.grace) * NANOS
    ensures LookupOutcome(limits, Replay(limits, EMPTY, ops), k, now) ==
            var r := Ledger(limits, ops)[k].response;
            match Holder(limits, ops, k)
            case None => Refresh(r)
            case Some(won) =>
              if limits.takeover == 0 || won + limits.takeover * NANOS <= now then Refresh(r) else Stale(r)
    ensures Elects(limits, ops, k, now) ==> Holder(limits, ops + [Lookup(k, now)], k) == Some(now)
  {
    hide Replay, Ledger, Holder, LookupOutcome;
    ReplayRefines(limits, ops);
    HolderHolds(limits, ops, k);
    var c := Replay(limits, EMPTY, ops);
    var e := Find(c.lru, k).value;
    var i := PlaceOf(c.lru, k);
    LookupDecides(limits, c, k, e, i, now);
    HolderNext(limits, ops, Lookup(k, now), k);
  }

  lemma HolderNext(limits: Limits, ops: seq<Op>, op: Op, k: string)
    requires op.Lookup? && op.key == k
    ensures Holder(limits, ops + [op], k)
        == if Elects(limits, ops, k, op.now) then Some(op.now) else Holder(limits, ops, k)
  {
    assert (ops + [op])[..|ops + [op]| - 1] == ops;
    hide Elects, Replay;
  }

  /** Nobody was elected to refresh `k` between the two runs. */
  ghost predicate NoElection(limits: Limits, early: seq<Op>, late: seq<Op>, k: string) {
    && early <= late
    && forall m :: |early| <= m < |late| && late[m].Lookup? && late[m].key == k ==>
         !Elects(limits, late[..m], k, late[m].now)
  }

  lemma {:induction false} HolderKept(limits: Limits, early: seq<Op>, late: seq<Op>, k: string)
    requires NoElection(limits, early, late, k)
    ensures Holder(limits, late, k) == None || Holder(limits, late, k) == Holder(limits, early, k)
    decreases |late|
  {
    hide Elects, Accepts, Replay;
    if |early| < |late| {
      var front := late[..|late| - 1];
      assert forall m :: 0 <= m <= |front| ==> front[..m] == late[..m];
      HolderKept(limits, early, front, k);
    } else {
      assert early == late;
    }
  }

  /** The last operation leaves the slot of `k` free at `now`: an accepted put, a clear, or an election whose takeover
      time is over. */
  predicate LeavesOpen(limits: Limits, ops: seq<Op>, k: string, now: nat) {
    ops != [] &&
    var front, op := ops[..|ops| - 1], ops[|ops| - 1];
    op.key == k &&
    match op
    case Clear(_, _) => true
    case Put(_, r, ttl, _) => Accepts(limits, Replay(limits, EMPTY, front), k, r, ttl)
    case Lookup(_, won) => Elects(limits, front, k, won) && won + limits.takeover * NANOS <= now
  }

  /** After an accepted put, after a clear, and once the takeover time of the last one elected is over, the first lookup
      that finds the entry in its grace window is elected: as long as anybody asks, somebody refreshes. */
  lemma NextElected(limits: Limits, early: seq<Op>, late: seq<Op>, k: string, now: nat)
    requires 0 < limits.capacity && LeavesOpen(limits, early, k, now) && NoElection(limits, early, late, k)
    requires Find(Replay(limits, EMPTY, late).lru, k).Some?
    requires var put := Ledger(limits, late);
             k in put && put[k].at + put[k].ttl * NANOS <= now < put[k].at + (put[k].ttl + limits.grace) * NANOS
    ensures LookupOutcome(limits, Replay(limits, EMPTY, late), k, now) == Refresh(Ledger(limits, late)[k].response)
  {
    HolderKept(limits, early, late, k);
    hide Replay, Ledger, LookupOutcome, NoElection, Accepts, Elects;
    ElectionDecided(limits, late, k, now);
  }

  // ----- what a put leaves -----

  /** The counter after giving back `gone` bytes. */
  function Left(size: nat, gone: nat): nat { if gone <= size then size - gone else 0 }

  /** Making room drops the least recent `m` entries: no more than needed for the counter to admit the new bytes. */
  lemma {:induction false} EvictsLeast(limits: Limits, c: Cache, need: nat) returns (m: nat)
    ensures m <= |c.lru| && Evict(limits, c, need) == Cache(c.lru[m..], Left(c.size, Bytes(c.lru[..m])))
    ensures forall j :: 0 <= j < m ==> Left(c.size, Bytes(c.lru[..j])) + need > limits.maxTotal
    ensures m < |c.lru| ==> Left(c.size, Bytes(c.lru[..m])) + need <= limits.maxTotal
    decreases |c.lru|
  {
    assert c.lru[..0] == [];
    if c.size + need <= limits.maxTotal || c.lru == [] {
      m := 0;
      assert c.lru[0..] == c.lru;
    } else {
      var rest := c.lru[1..];
      var n := EvictsLeast(limits, Cache(rest, SaturatingSub(c.size, c.lru[0].value.size)), need);
      m := n + 1;
      assert rest[n..] == c.lru[m..];
      forall j | 0 <= j <= |rest| ensures Bytes(c.lru[..j + 1]) == c.lru[0].value.size + Bytes(rest[..j]) {
        assert c.lru[..j + 1][1..] == rest[..j];
      }
      hide Bytes;
      forall j | 0 <= j < m ensures Left(c.size, Bytes(c.lru[..j])) + need > limits.maxTotal {
        if j > 0 { assert Bytes(c.lru[..j - 1 + 1]) == c.lru[0].value.size + Bytes(rest[..j - 1]); }
      }
    }
  }

  /** The counter once the entry of `k` and the first `j` entries are given back. */
  function CounterLeft(c: Cache, k: string, j: nat): nat
    requires j <= |c.lru|
  {
    Left(Left(c.size, SizeUnder(c.lru, k)), Bytes(c.lru[..j]))
  }

  lemma RoomMade(limits: Limits, c: Cache, k: string, need: nat) returns (m: nat)
    requires Accounted(limits, c)
    ensures m <= |c.lru|
    ensures Evict(limits, Reclaim(c, k), need) == Cache(c.lru[m..], CounterLeft(c, k, m))
    ensures if need > limits.maxTotal then m == |c.lru| && CounterLeft(c, k, m) == 0
            else forall j :: 0 <= j <= m ==> (CounterLeft(c, k, j) + need <= limits.maxTotal <==> j == m)
  {
    m := EvictsLeast(limits, Reclaim(c, k), need);
    assert Reclaim(c, k) == Cache(c.lru, Left(c.size, SizeUnder(c.lru, k)));
    assert c.lru[..|c.lru|] == c.lru;
    hide Evict, Reclaim, Bytes, SizeUnder, Distinct;
  }

  lemma EntryInserted(limits: Limits, l: seq<Pair<Entry>>, m: nat, size: nat, k: string, e: Entry)
    requires m <= |l| && |l| <= limits.capacity && 0 < limits.capacity
    ensures var kept := if m == 0 && |l| == limits.capacity && Absent(l, k) then l[1..] else l[m..];
            InsertEntry(limits, Cache(l[m..], size), k, e).lru == Without(kept, k) + [Pair(k, e)]
  {
    AbsentMeans(l[m..], k);
    hide Absent, Without, Find;
    if m == 0 { assert l[m..] == l; }
  }

  /** A put that cannot be kept, without a lifetime or with a body above the limit for one entry, changes nothing; one
      above the limit for all of them empties the store. Any other put drops the least recent entries until the counter,
      less the bytes of the entry it replaces, admits it, or the first one if the store is full without the key, and
      becomes the most recent entry, with deadlines counted from now and a free slot. */
  lemma PutLeaves(limits: Limits, c: Cache, k: string, r: Response, ttl: Option<nat>, now: nat) returns (m: nat)
    requires Accounted(limits, c) && 0 < limits.capacity
    ensures var after := PutCache(limits, c, k, r, ttl, now);
            var secs := if ttl.Some? then ttl.value else limits.defaultTtl;
            var need := limits.measure(r.body);
            if secs == 0 || need > limits.maxEntry then after == c
            else if need > limits.maxTotal then after == EMPTY
            else
              && m <= |c.lru|
              && (forall j :: 0 <= j <= m ==> (CounterLeft(c, k, j) + need <= limits.maxTotal <==> j == m))
              && var full := m == 0 && |c.lru| == limits.capacity && Absent(c.lru, k);
                 var kept := if full then c.lru[1..] else c.lru[m..];
                 after.lru == Without(kept, k) + [Pair(k, Entry(r, now + secs * NANOS,
                                                               now + (secs + limits.grace) * NANOS, None, need))]
  {
    var need := limits.measure(r.body);
    m := RoomMade(limits, c, k, need);
    var roomy := Evict(limits, Reclaim(c, k), need);
    EntryInserted(limits, c.lru, m, roomy.size, k, NewEntry(limits, r, Ttl(limits, ttl), now));
    hide Evict, Reclaim, Bytes, SizeUnder, Distinct, InsertEntry, Absent, Without, CounterLeft;
  }

  // ----- recency -----

  /** The operation makes the key the most recent if it is stored at all: lookups and clears of it, and accepted
      puts. */
  predicate Uses(limits: Limits, c: Cache, op: Op, k: string) {
    op.key == k && (op.Put? ==> Accepts(limits, c, k, op.response, op.ttl))
  }

  /** The position of the last operation that used the key; -1 if there is none. */
  function LastUse(limits: Limits, ops: seq<Op>, k: string): (i: int)
    ensures -1 <= i < |ops|
  {
    if ops == [] then -1
    else if Uses(limits, Replay(limits, EMPTY, ops[..|ops| - 1]), ops[|ops| - 1], k) then |ops| - 1
    else LastUse(limits, ops[..|ops| - 1], k)
  }

  /** Least recently used first. */
  predicate ByUse(limits: Limits, ops: seq<Op>, l: seq<Pair<Entry>>) {
    forall i, j :: 0 <= i < j < |l| ==> LastUse(limits, ops, l[i].key) < LastUse(limits, ops, l[j].key)
  }

  lemma {:induction false} WithoutByUse(limits: Limits, ops: seq<Op>, l: seq<Pair<Entry>>, k: string)
    requires ByUse(limits, ops, l)
    ensures ByUse(limits, ops, Without(l, k)) && Absent(Without(l, k), k)
    ensures forall p :: p in Without(l, k) ==> p in l
  {
    hide LastUse;
    if l != [] {
      var rest := Without(l[1..], k);
      forall i, j | 0 <= i < j < |l[1..]|
        ensures LastUse(limits, ops, l[1..][i].key) < LastUse(limits, ops, l[1..][j].key)
      {
        assert l[1..][i] == l[i + 1] && l[1..][j] == l[j + 1];
      }
      WithoutByUse(limits, ops, l[1..], k);
      if l[0].key != k {
        forall j | 0 <= j < |rest| ensures LastUse(limits, ops, l[0].key) < LastUse(limits, ops, rest[j].key) {
          assert rest[j] in l[1..];
          var i :| 0 <= i < |l[1..]| && l[1..][i] == rest[j];
          assert l[i + 1] == rest[j];
        }
      }
    }
  }

  /** Order by use survives an operation that uses `k` alone: what is left of the others keeps its order, and `k` comes
      last. */
  lemma UsedLast(limits: Limits, front: seq<Op>, op: Op, l: seq<Pair<Entry>>, k: string, e: Entry)
    requires ByUse(limits, front, l) && Uses(limits, Replay(limits, EMPTY, front), op, k)
    ensures ByUse(limits, front + [op], Without(l, k)) && ByUse(limits, front + [op], Without(l, k) + [Pair(k, e)])
  {
    var ops := front + [op];
    assert ops[..|ops| - 1] == front;
    WithoutByUse(limits, front, l, k);
    var m := Without(l, k);
    forall i | 0 <= i < |m| ensures LastUse(limits, ops, m[i].key) == LastUse(limits, front, m[i].key) {
      assert m[i].key != k;
    }
    assert LastUse(limits, ops, k) == |front|;
    hide LastUse, Uses, Without;
  }

  lemma SuffixByUse(limits: Limits, ops: seq<Op>, l: seq<Pair<Entry>>, n: nat)
    requires ByUse(limits, ops, l) && n <= |l|
    ensures ByUse(limits, ops, l[n..])
  {
    hide LastUse;
  }

  /** An operation that does not use any key leaves the last uses as they were. */
  lemma UnusedSame(limits: Limits, front: seq<Op>, op: Op, l: seq<Pair<Entry>>)
    requires ByUse(limits, front, l) && !Uses(limits, Replay(limits, EMPTY, front), op, op.key)
    ensures ByUse(limits, front + [op], l)
  {
    var ops := front + [op];
    assert ops[..|ops| - 1] == front;
    forall k ensures LastUse(limits, ops, k) == LastUse(limits, front, k) { }
    hide LastUse, Uses;
  }

  lemma StepByUse(limits: Limits, front: seq<Op>, op: Op)
    requires 0 < limits.capacity && ByUse(limits, front, Replay(limits, EMPTY, front).lru)
    ensures ByUse(limits, front + [op], Replay(limits, EMPTY, front + [op]).lru)
  {
    var c := Replay(limits, EMPTY, front);
    AccountedAlways(limits, front);
    ReplayOne(limits, front, op);
    hide Replay, ByUse;
    match op
    case Put(k, r, ttl, now) =>
      var m := EvictsLeast(limits, Reclaim(c, k), limits.measure(r.body));
      SuffixByUse(limits, front, c.lru, m);
      if Accepts(limits, c, k, r, ttl) {
        var e := NewEntry(limits, r, Ttl(limits, ttl), now);
        var l := c.lru[m..];
        if l != [] { SuffixByUse(limits, front, l, 1); }
        UsedLast(limits, front, op, MakeRoom(l, limits.capacity, k), k, e);
      } else {
        if TriesPut(limits, r, ttl) { UnusedSame(limits, front, op, c.lru[m..]); }
        else { UnusedSame(limits, front, op, c.lru); }
      }
    case Lookup(k, now) =>
      if Find(c.lru, k).Some? {
        var e := Find(c.lru, k).value;
        UsedLast(limits, front, op, c.lru, k, e);
        UsedLast(limits, front, op, c.lru, k, e.(refreshStarted := Some(now)));
      } else {
        WithoutAbsent(c.lru, k);
        UsedLast(limits, front, op, c.lru, k, NewEntry(limits, Response(Null, "", None), 0, 0));
      }
    case Clear(k, now) =>
      if Find(c.lru, k).Some? {
        UsedLast(limits, front, op, c.lru, k, Find(c.lru, k).value.(refreshStarted := None));
      } else {
        WithoutAbsent(c.lru, k);
        UsedLast(limits, front, op, c.lru, k, NewEntry(limits, Response(Null, "", None), 0, 0));
      }
  }

  /** After any run the entries stand in the order of their last use: hits and clears count as uses, refused puts do
      not. */
  lemma {:induction false} RecencyOrder(limits: Limits, ops: seq<Op>)
    requires 0 < limits.capacity
    ensures ByUse(limits, ops, Replay(limits, EMPTY, ops).lru)
  {
    if ops != [] {
      var front := ops[..|ops| - 1];
      RecencyOrder(limits, front);
      StepByUse(limits, front, ops[|ops| - 1]);
      assert ops == front + [ops[|ops| - 1]];
    }
  }

  lemma KeptFind(kept: seq<Pair<Entry>>, k: string, e: Entry, other: string)
    requires other != k
    ensures Find(Without(kept, k) + [Pair(k, e)], other) == Find(kept, other)
  {
    FindWithout(kept, k, other);
    FindAppend(Without(kept, k), [Pair(k, e)], other);
  }

  lemma InSuffix(l: seq<Pair<Entry>>, k: string, e: Entry, i: nat, n: nat)
    requires StandsAt(l, k, e, i) && n <= |l|
    ensures Find(l[n..], k).Some? <==> n <= i
  {
    AbsentMeans(l[n..], k);
    AbsentTail(l, k, n);
    hide Absent, Find;
  }

  /** What a put evicts stands before what it leaves. */
  lemma EvictedBefore(limits: Limits, c: Cache, k: string, r: Response, ttl: Option<nat>, now: nat, stays: string,
                      i: nat, goes: string, j: nat)
    requires Accounted(limits, c) && 0 < limits.capacity && stays != k && goes != k
    requires Find(c.lru, stays).Some? && StandsAt(c.lru, stays, Find(c.lru, stays).value, i)
    requires Find(c.lru, goes).Some? && StandsAt(c.lru, goes, Find(c.lru, goes).value, j)
    requires var after := PutCache(limits, c, k, r, ttl, now).lru;
             Find(after, stays).Some? && Find(after, goes).None?
    ensures j < i
  {
    hide PutCache;
    var m := PutLeaves(limits, c, k, r, ttl, now);
    var n := if m == 0 && |c.lru| == limits.capacity && Absent(c.lru, k) then 1 else m;
    hide Absent, Find, CounterLeft, Without, StandsAt;
    var secs := if ttl.Some? then ttl.value else limits.defaultTtl;
    var e := Entry(r, now + secs * NANOS, now + (secs + limits.grace) * NANOS, None, limits.measure(r.body));
    KeptFind(c.lru[n..], k, e, stays);
    KeptFind(c.lru[n..], k, e, goes);
    InSuffix(c.lru, stays, Find(c.lru, stays).value, i, n);
    InSuffix(c.lru, goes, Find(c.lru, goes).value, j, n);
  }

  /** What a put evicts was used less recently than anything it leaves. */
  lemma LeastRecentGoes(limits: Limits, ops: seq<Op>, k: string, r: Response, ttl: Option<nat>, now: nat, stays: string,
                        goes: string)
    requires 0 < limits.capacity && stays != k && goes != k
    requires var before := Replay(limits, EMPTY, ops).lru; Find(before, stays).Some? && Find(before, goes).Some?
    requires var after := PutCache(limits, Replay(limits, EMPTY, ops), k, r, ttl, now).lru;
             Find(after, stays).Some? && Find(after, goes).None?
    ensures LastUse(limits, ops, goes) < LastUse(limits, ops, stays)
  {
    var c := Replay(limits, EMPTY, ops);
    AccountedAlways(limits, ops);
    RecencyOrder(limits, ops);
    hide Replay, PutCache, LastUse, Find;
    var i := PlaceOf(c.lru, stays);
    var j := PlaceOf(c.lru, goes);
    EvictedBefore(limits, c, k, r, ttl, now, stays, i, goes, j);
  }
}
