/** The store object itself: entries and the byte counter are updated in place, and every operation is
    one step of the run that `history` records. */
module CacheStores {
  import opened Base
  import opened JsonValues
  import opened Lru
  import opened Responses
  import opened CacheTheorems

  class CacheStore {
    const limits: Limits
    var inner: seq<Pair<Entry>>
    var currentSize: nat
    /** Operations performed so far; its length is what `operations` counts. */
    ghost var history: seq<Op>
    var operations: nat

    ghost predicate Valid()
      reads this
    {
      && 0 < limits.capacity
      && operations == |history|
      && Contents() == Replay(limits, EMPTY, history)
      && Accounted(limits, Contents())
    }

    function Contents(): Cache
      reads this
    {
      Cache(inner, currentSize)
    }

    constructor (maxEntries: nat, defaultTtl: nat, maxEntry: nat, maxTotal: nat, grace: nat, takeover: nat,
                 measure: Json -> nat)
      ensures Valid() && history == [] && Contents() == EMPTY
      ensures limits == Limits(if maxEntries == 0 then 1024 else maxEntries, defaultTtl, maxEntry, maxTotal,
                               grace, takeover, measure)
    {
      limits := Limits(if maxEntries == 0 then 1024 else maxEntries, defaultTtl, maxEntry, maxTotal,
                       grace, takeover, measure);
      inner, currentSize, history, operations := [], 0, [], 0;
    }

    /** The limits of `CacheStore::new`: one refresher per stale entry. */
    constructor WithDefaults(maxEntries: nat, defaultTtl: nat, measure: Json -> nat)
      ensures Valid() && history == [] && Contents() == EMPTY
      ensures limits.maxEntry == DEFAULT_MAX_ENTRY_SIZE && limits.maxTotal == DEFAULT_MAX_TOTAL_SIZE
      ensures limits.grace <= limits.takeover
    {
      limits := Limits(if maxEntries == 0 then 1024 else maxEntries, defaultTtl, DEFAULT_MAX_ENTRY_SIZE,
                       DEFAULT_MAX_TOTAL_SIZE, DEFAULT_SWR_GRACE_SECS, DEFAULT_REFRESH_TAKEOVER_SECS, measure);
      inner, currentSize, history, operations := [], 0, [], 0;
    }

    ghost method Record(op: Op)
      requires 0 < limits.capacity && operations == |history|
      requires Accounted(limits, Replay(limits, EMPTY, history))
      requires Contents() == Apply(limits, Replay(limits, EMPTY, history), op)
      modifies this`history
      ensures history == old(history) + [op]
      ensures Contents() == Replay(limits, EMPTY, history) && Accounted(limits, Contents())
    {
      ApplyAccounted(limits, Replay(limits, EMPTY, history), op);
      history := history + [op];
      assert history[..|history| - 1] == old(history);
    }

    method LookupEntry(key: string, now: nat) returns (out: Outcome)
      requires Valid()
      modifies this
      ensures Valid() && history == old(history) + [Lookup(key, now)]
      ensures Contents() == LookupCache(limits, old(Contents()), key, now)
      ensures out == LookupOutcome(limits, old(Contents()), key, now)
    {
      match Find(inner, key) {
      case None =>
        out := Miss;
      case Some(entry) =>
        if now < entry.freshUntil {
          inner := Lru.Store(inner, key, entry);
          out := Fresh(entry.response);
        } else if now < entry.staleUntil {
          if CanTakeOver(limits, entry, now) {
            inner := Lru.Store(inner, key, entry.(refreshStarted := Some(now)));
            out := Refresh(entry.response);
          } else {
            inner := Lru.Store(inner, key, entry);
            out := Stale(entry.response);
          }
        } else {
          inner := Without(inner, key);
          currentSize := SaturatingSub(currentSize, entry.size);
          out := Miss;
        }
      }
      Record(Lookup(key, now));
      operations := operations + 1;
    }

    method ClearRefresh(key: string, now: nat)
      requires Valid()
      modifies this
      ensures Valid() && history == old(history) + [Clear(key, now)]
      ensures Contents() == ClearCache(old(Contents()), key)
    {
      match Find(inner, key) {
        case None =>
        case Some(entry) => inner := Lru.Store(inner, key, entry.(refreshStarted := None));
      }
      Record(Clear(key, now));
      operations := operations + 1;
    }

    /** The eviction loop: it ends because every turn drops an entry. */
    method EvictFor(need: nat) returns (fits: bool)
      modifies this`inner, this`currentSize
      ensures Contents() == Evict(limits, old(Contents()), need)
      ensures fits == (currentSize + need <= limits.maxTotal)
    {
      while currentSize + need > limits.maxTotal
        invariant Evict(limits, Contents(), need) == Evict(limits, old(Contents()), need)
        decreases |inner|
      {
        if inner == [] {
          return false;
        }
        var evicted := inner[0].value;
        inner := inner[1..];
        currentSize := SaturatingSub(currentSize, evicted.size);
      }
      return true;
    }

    /** Forget the size of the entry about to be overwritten, then make room. */
    method ReclaimAndEvict(key: string, need: nat) returns (fits: bool)
      modifies this`inner, this`currentSize
      ensures Contents() == Evict(limits, Reclaim(old(Contents()), key), need)
      ensures fits == (currentSize + need <= limits.maxTotal)
    {
      match Find(inner, key) {
        case None =>
        case Some(previous) => currentSize := SaturatingSub(currentSize, previous.size);
      }
      fits := EvictFor(need);
    }

    method PushEntry(key: string, entry: Entry)
      modifies this`inner, this`currentSize
      ensures Contents() == InsertEntry(limits, old(Contents()), key, entry)
    {
      var out := PushedOut(inner, limits.capacity, key);
      inner := Push(inner, limits.capacity, key, entry);
      if out.Some? {
        currentSize := SaturatingSub(currentSize, out.value.size);
      }
      currentSize := currentSize + entry.size;
    }

    method PutResponse(key: string, response: Response, ttlSecs: Option<nat>, now: nat)
      requires Valid()
      modifies this
      ensures Valid() && history == old(history) + [Put(key, response, ttlSecs, now)]
      ensures Contents() == PutCache(limits, old(Contents()), key, response, ttlSecs, now)
    {
      var ttl := Ttl(limits, ttlSecs);
      var entrySize := limits.measure(response.body);
      if ttl != 0 && entrySize <= limits.maxEntry {
        var fits := ReclaimAndEvict(key, entrySize);
        if fits {
          PushEntry(key, NewEntry(limits, response, ttl, now));
        }
      }
      Record(Put(key, response, ttlSecs, now));
      operations := operations + 1;
    }
  }
}
