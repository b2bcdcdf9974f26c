/** The mutable objects of a run: the request context shared by all of its pipelines, the context of one
    pipeline, and the response metadata being collected. */
module Contexts {
  import opened Base
  import opened JsonValues
  import opened Ast
  import opened Responses
  import opened CacheStores
  import opened Runtime
  import opened StateFolding
  import opened Steps

  class RequestContext {
    var featureFlags: map<string, bool>
    var conditions: map<string, bool>
    var callLog: map<string, seq<Json>>
    var cachePolicy: Option<CachePolicy>
    var request: Json
    var outside: Json
    /** Handles registered by `@async` steps, by name. */
    var tasks: map<string, Task>

    function View(): Shared
      reads this
    {
      Shared(featureFlags, conditions, callLog, cachePolicy, request, outside)
    }

    /** A fresh context; only the outside world is inherited. */
    constructor (outside: Json)
      ensures View() == Shared(map[], map[], map[], None, Null, outside) && tasks == map[]
    {
      featureFlags, conditions, callLog := map[], map[], map[];
      cachePolicy, request, this.outside, tasks := None, Null, outside, map[];
    }

    /** Take over what a middleware call left behind. */
    method Adopt(s: Shared)
      modifies this
      ensures View() == s && tasks == old(tasks)
    {
      featureFlags, conditions, callLog := s.flags, s.conditions, s.callLog;
      cachePolicy, request, outside := s.cachePolicy, s.request, s.outside;
    }

    method RecordPipelineCall(config: string, input: Json)
      modifies this`callLog
      ensures forall w: World :: w.shared == old(View()) ==> LogCall(w, config, input) == w.(shared := View())
    {
      var key := "pipeline." + Trim(config);
      if key !in callLog {
        callLog := callLog[key := []];
      }
      callLog := callLog[key := callLog[key] + [input]];
    }

    /** Registering a name again drops the earlier handle. */
    method Register(name: string, t: Task)
      modifies this`tasks
      ensures tasks == old(tasks)[name := t]
    {
      tasks := tasks[name := t];
    }

    /** A handle can be taken only once. */
    method Take(name: string) returns (t: Option<Task>)
      modifies this`tasks
      ensures t == if name in old(tasks) then Some(old(tasks)[name]) else None
      ensures tasks == old(tasks) - {name} && name !in tasks
    {
      t := if name in tasks then Some(tasks[name]) else None;
      tasks := tasks - {name};
    }
  }

  function Present(state: Json, keys: seq<string>): seq<(string, Json)> {
    if keys == [] then []
    else (if Get(state, keys[0]).Some? then [(keys[0], Get(state, keys[0]).value)] else []) + Present(state, keys[1..])
  }

  function Filled(fields: map<string, Json>, backups: seq<(string, Json)>): map<string, Json>
    decreases |backups|
  {
    if backups == [] then fields
    else Filled(if backups[0].0 in fields then fields else fields[backups[0].0 := backups[0].1], backups[1..])
  }

  /** What filling from the present keys amounts to, key by key. */
  lemma {:induction false} FilledAt(state: Json, keys: seq<string>, fields: map<string, Json>, k: string)
    ensures ValueAt(Filled(fields, Present(state, keys)), k)
         == if k in fields then Some(fields[k]) else if k in keys then Get(state, k) else None
    decreases |keys|
  {
    if keys != [] {
      var key := keys[0];
      assert keys == [key] + keys[1..];
      var more := Present(state, keys[1..]);
      if Get(state, key).Some? {
        assert Present(state, keys)[1..] == more;
        FilledAt(state, keys[1..], if key in fields then fields else fields[key := Get(state, key).value], k);
      } else {
        assert Present(state, keys) == more;
        FilledAt(state, keys[1..], fields, k);
      }
      hide Filled, Present;
    }
  }

  function Kept(before: map<string, Json>, keys: seq<string>): map<string, Json> {
    map k | k in keys && k in before :: before[k]
  }

  /** Restoring a backup keeps the keys that the new value does not set. */
  lemma FilledKept(before: Json, keys: seq<string>, after: map<string, Json>)
    ensures Filled(after, Present(before, keys)) == if before.Object? then Kept(before.fields, keys) + after else after
  {
    var filled := Filled(after, Present(before, keys));
    var want := if before.Object? then Kept(before.fields, keys) + after else after;
    forall k ensures ValueAt(filled, k) == ValueAt(want, k) {
      FilledAt(before, keys, after, k);
    }
    SameMaps(filled, want);
  }

  lemma SameMaps<K, V>(m: map<K, V>, n: map<K, V>)
    requires forall k :: ValueAt(m, k) == ValueAt(n, k)
    ensures m == n
  {
    forall k ensures k in m <==> k in n {
      assert ValueAt(m, k) == ValueAt(n, k);
    }
    forall k | k in m ensures m[k] == n[k] {
      assert ValueAt(m, k) == ValueAt(n, k);
    }
  }

  class PipelineContext {
    var state: Json
    var pendingSaves: seq<PendingSave>
    var cacheHit: Option<Response>
    /** The cache lookups made by this run's own steps. */
    ghost var lookups: seq<LookupEvent>

    constructor (input: Json)
      ensures state == input && pendingSaves == [] && cacheHit == None && lookups == []
    {
      state, pendingSaves, cacheHit, lookups := input, [], None, [];
    }

    method Merge(incoming: Json)
      modifies this`state
      ensures state == MergeState(old(state), incoming)
    {
      if state.Object? && incoming.Object? {
        state := Object(state.fields + incoming.fields);
      } else {
        state := incoming;
      }
    }

    /** The runtime keys present in the state, in their fixed order. */
    method BackupSystemKeys() returns (backups: seq<(string, Json)>)
      ensures backups == Present(state, RUNTIME_KEYS)
    {
      backups := BackupKeys(RUNTIME_KEYS);
    }

    method BackupKeys(keys: seq<string>) returns (backups: seq<(string, Json)>)
      ensures backups == Present(state, keys)
    {
      backups := [];
      for i := 0 to |keys|
        invariant backups + Present(state, keys[i..]) == Present(state, keys)
      {
        assert keys[i..] == [keys[i]] + keys[i + 1..];
        assert keys[i..][1..] == keys[i + 1..];
        var v := Get(state, keys[i]);
        if v.Some? {
          backups := backups + [(keys[i], v.value)];
        }
      }
    }

    /** Entries the state lacks are put back; of two for one key the first counts. */
    method RestoreSystemKeys(backups: seq<(string, Json)>)
      modifies this`state
      ensures state == if old(state).Object? then Object(Filled(old(state).fields, backups)) else old(state)
    {
      if state.Object? {
        var fields := state.fields;
        for i := 0 to |backups|
          invariant Filled(fields, backups[i..]) == Filled(state.fields, backups)
        {
          var (key, val) := backups[i];
          assert backups[i..][1..] == backups[i + 1..];
          if key !in fields {
            fields := fields[key := val];
          }
        }
        state := Object(fields);
      }
    }

    /** Fold a step's value into the state, key by key as the middleware's behavior prescribes. */
    method Update(value: Json, behavior: Behavior, isLast: bool)
      modifies this`state
      ensures Folds(old(state), value, behavior, isLast, state)
      ensures state == UpdateState(old(state), value, behavior, isLast)
    {
      UpdateFolds(state, value, behavior, isLast);
      hide Folds;
      match behavior {
        case Merge => Merge(value);
        case Transform =>
          if isLast {
            state := value;
          } else {
            var backups := BackupSystemKeys();
            state := value;
            RestoreSystemKeys(backups);
            if value.Object? { FilledKept(old(state), RUNTIME_KEYS, value.fields); }
          }
        case Render => state := value;
        case ReadOnly =>
      }
    }
  }

  class ResponseMetadata {
    var contentType: string
    var status: Option<nat>

    constructor (contentType: string, status: Option<nat>)
      ensures this.contentType == contentType && this.status == status
    {
      this.contentType, this.status := contentType, status;
    }
  }
}
