/** What a load does to the loader's cache and stack, and when it succeeds, whatever was loaded before. */
module Loading {
  import opened Base
  import opened Programs
  import opened ImportGraphs

  datatype LoadError =
    | ImportNotFound(path: string)
    | ParseError(path: Path)
    | CircularImport(cycle: seq<Path>)

  datatype State = State(cache: map<Path, Program>, stack: seq<Path>)

  datatype Loaded = Loaded(result: Base.Result<Program, LoadError>, state: State)

  const EMPTY: State := State(map[], [])

  /** Position of the first occurrence. */
  function IndexOf(s: seq<Path>, p: Path): (i: nat)
    requires p in s
    ensures i < |s| && s[i] == p && p !in s[..i]
  {
    if s[0] == p then 0
    else
      assert s == [s[0]] + s[1..];
      1 + IndexOf(s[1..], p)
  }

  /** The files on the stack from `p` on, closed by `p` itself. */
  function CycleFrom(stack: seq<Path>, p: Path): seq<Path>
    requires p in stack
  {
    stack[IndexOf(stack, p)..] + [p]
  }

  ghost function Load(fs: FileSystem, st: State, path: string): (l: Loaded)
    requires WellFormed(fs)
    ensures l.result.Ok? ==> l.state.stack == st.stack
    decreases fs.files.Keys - Elements(st.stack), 0, 0
  {
    match fs.canonicalize(path)
    case None => Loaded(Err(ImportNotFound(path)), st)
    case Some(p) =>
      if p in st.cache then Loaded(Ok(st.cache[p]), st)
      else if p in st.stack then Loaded(Err(CircularImport(CycleFrom(st.stack, p))), st)
      else
        var pushed := st.(stack := st.stack + [p]);
        assert p in fs.files.Keys - Elements(st.stack) && p !in fs.files.Keys - Elements(pushed.stack);
        match fs.files[p]
        case Unreadable => Loaded(Err(ImportNotFound(p)), pushed)
        case Unparsable => Loaded(Err(ParseError(p)), pushed)
        case Parsed(program) => LoadImports(fs, pushed, p, program, 0)
  }

  /** The first import that fails stops the load; nothing is taken off the stack then. */
  ghost function LoadImports(fs: FileSystem, st: State, p: Path, program: Program, i: nat): (l: Loaded)
    requires WellFormed(fs) && st.stack != [] && i <= |program.imports|
    ensures l.result.Ok? ==> l.state.stack == st.stack[..|st.stack| - 1]
    decreases fs.files.Keys - Elements(st.stack), 1, |program.imports| - i
  {
    if i == |program.imports| then
      Loaded(Ok(program), State(st.cache[p := program], st.stack[..|st.stack| - 1]))
    else
      match fs.resolve(p, program.imports[i].path)
      case None => Loaded(Err(ImportNotFound(program.imports[i].path)), st)
      case Some(target) =>
        var l := Load(fs, st, target);
        if l.result.Err? then l else LoadImports(fs, l.state, p, program, i + 1)
  }

  // ----- what every load keeps -----

  /** Cached programs are those of sound files, and the cache is closed under imports. */
  ghost predicate CacheValid(fs: FileSystem, cache: map<Path, Program>) {
    && Closed(fs, cache.Keys)
    && forall p :: p in cache ==> p in fs.files && fs.files[p] == Parsed(cache[p]) && Sound(fs, p)
  }

  ghost predicate Valid(fs: FileSystem, st: State) {
    WellFormed(fs) && CacheValid(fs, st.cache) && Elements(st.stack) !! st.cache.Keys
  }

  /** Nothing on the stack can be reached from `p`. */
  ghost predicate Clear(fs: FileSystem, stack: seq<Path>, p: Path) {
    forall q :: q in stack ==> !Reachable(fs, p, q)
  }

  /** The file at position `i` cannot be loaded on top of the files below it. */
  ghost predicate Blocked(fs: FileSystem, stack: seq<Path>, i: nat)
    requires i < |stack|
  {
    !(Sound(fs, stack[i]) && Clear(fs, stack[..i], stack[i]))
  }

  /** A failed load leaves the stack longer by an import path from the loaded file, all of it blocked. */
  ghost predicate Leaves(fs: FileSystem, before: seq<Path>, after: seq<Path>, p: Path) {
    && before <= after && (after != before ==> PathFrom(fs, after[|before|..], p))
    && (forall i :: |before| <= i < |after| ==> Blocked(fs, after, i))
  }

  /** A reported cycle is the end of the stack, closed by a file that the last loaded one imports. */
  ghost predicate Reports(fs: FileSystem, before: seq<Path>, after: seq<Path>, p: Path, cycle: seq<Path>) {
    && before <= after && |cycle| >= 2 && cycle[0] in after && cycle == CycleFrom(after, cycle[0])
    && PathFrom(fs, after[|before|..] + [cycle[0]], p)
  }

  ghost predicate Correct(fs: FileSystem, st: State, p: Path, l: Loaded) {
    && Valid(fs, l.state) && st.cache.Keys <= l.state.cache.Keys
    && (l.result.Ok? <==> Sound(fs, p) && Clear(fs, st.stack, p))
    && (l.result.Ok? ==> l.state.stack == st.stack && p in l.state.cache && l.state.cache[p] == l.result.value)
    && (l.result.Err? ==> p in l.state.stack && Leaves(fs, st.stack, l.state.stack, p))
    && (l.result.Err? && l.result.error.CircularImport? ==> Reports(fs, st.stack, l.state.stack, p,
                                                                    l.result.error.cycle))
  }

  lemma {:induction false} LoadCorrect(fs: FileSystem, st: State, path: string)
    requires Valid(fs, st)
    ensures var l := Load(fs, st, path);
            && Valid(fs, l.state) && (fs.canonicalize(path).Some? ==> Correct(fs, st, fs.canonicalize(path).value, l))
    decreases fs.files.Keys - Elements(st.stack), 0, 0
  {
    hide Sound, IsPath, Edge, Closed, Reachable, Leaves, Reports;
    var canonical := fs.canonicalize(path);
    if canonical.None? { return; }
    var p := canonical.value;
    var l := Load(fs, st, path);
    if p in st.cache {
      CachedClear(fs, st, p);
    } else if p in st.stack {
      ReachableSelf(fs, p);
      LeavesNothing(fs, st.stack, p);
      ReportsAtOnce(fs, st.stack, p);
    } else {
      var pushed := st.(stack := st.stack + [p]);
      assert Elements(pushed.stack) == Elements(st.stack) + {p};
      assert p in fs.files.Keys - Elements(st.stack) && p !in fs.files.Keys - Elements(pushed.stack);
      if fs.files[p].Parsed? {
        hide LoadImports;
        ImportsCorrect(fs, pushed, st.stack, p, fs.files[p].program, 0);
      } else {
        UnhealthyUnsound(fs, p);
        LeavesPushed(fs, st.stack, p);
      }
    }
  }

  lemma {:induction false} ImportsCorrect(fs: FileSystem, st: State, before: seq<Path>, p: Path, program: Program,
                                          i: nat)
    requires Valid(fs, st) && st.stack == before + [p] && p !in before && p in fs.files
    requires fs.files[p] == Parsed(program)
    requires i <= |program.imports|
    requires forall j :: 0 <= j < i ==>
               var q := fs.resolve(p, program.imports[j].path); q.Some? && q.value in st.cache
    ensures Correct(fs, State(st.cache, before), p, LoadImports(fs, st, p, program, i))
    decreases fs.files.Keys - Elements(st.stack), 1, |program.imports| - i
  {
    hide Sound, IsPath, Edge, Closed, Reachable, Leaves, Reports, Load;
    assert Elements(st.stack) == Elements(before) + {p};
    if i == |program.imports| {
      CacheGrows(fs, st, p, program);
      assert st.stack[..|st.stack| - 1] == before;
      CachedClear(fs, State(st.cache[p := program], before), p);
    } else {
      var target := fs.resolve(p, program.imports[i].path);
      if target.None? {
        UnresolvedUnsound(fs, p, program, i);
        LeavesPushed(fs, before, p);
      } else {
        assert fs.canonicalize(target.value) == target;
        ImportEdge(fs, p, program, i);
        LoadCorrect(fs, st, target.value);
        var l := Load(fs, st, target.value);
        if l.result.Err? {
          BlockedImport(fs, p, target.value, before);
          LeavesMore(fs, before, l.state.stack, p, target.value);
          LeavesLonger(fs, st.stack, l.state.stack, target.value);
          assert l.state.stack[|before|] == p;
          if l.result.error.CircularImport? {
            ReportsOutward(fs, before, l.state.stack, p, target.value, l.result.error.cycle);
          }
        } else {
          ImportsCorrect(fs, l.state, before, p, program, i + 1);
        }
      }
    }
  }

  // ----- one step of the search -----

  lemma ReachableSelf(fs: FileSystem, p: Path)
    ensures Reachable(fs, p, p)
  {
    assert PathFrom(fs, [p], p);
  }

  /** From a cached file only cached files can be reached. */
  lemma CachedClear(fs: FileSystem, st: State, p: Path)
    requires p in st.cache && Closed(fs, st.cache.Keys) && Elements(st.stack) !! st.cache.Keys
    ensures Clear(fs, st.stack, p)
  {
    forall q | q in st.stack ensures !Reachable(fs, p, q) {
      assert q in Elements(st.stack);
      if Reachable(fs, p, q) {
        var ps :| PathFrom(fs, ps, p) && ps[|ps| - 1] == q;
        ClosedPath(fs, st.cache.Keys, ps, |ps| - 1);
      }
    }
  }

  lemma LeavesNothing(fs: FileSystem, stack: seq<Path>, p: Path)
    ensures Leaves(fs, stack, stack, p)
  {
  }

  lemma ReportsAtOnce(fs: FileSystem, stack: seq<Path>, p: Path)
    requires p in stack
    ensures Reports(fs, stack, stack, p, CycleFrom(stack, p))
  {
    assert stack[|stack|..] + [p] == [p];
    assert PathFrom(fs, [p], p);
  }

  lemma LeavesPushed(fs: FileSystem, before: seq<Path>, p: Path)
    requires !(Sound(fs, p) && Clear(fs, before, p))
    ensures Leaves(fs, before, before + [p], p)
  {
    var after := before + [p];
    assert after[|before|..] == [p] && after[..|before|] == before;
    assert PathFrom(fs, [p], p);
  }

  lemma LeavesMore(fs: FileSystem, before: seq<Path>, after: seq<Path>, p: Path, q: Path)
    requires Edge(fs, p, q) && Leaves(fs, before + [p], after, q)
    requires !(Sound(fs, p) && Clear(fs, before, p))
    ensures Leaves(fs, before, after, p)
  {
    hide Edge, Sound, Clear;
    var n := |before|;
    assert after[..n + 1] == before + [p] && after[n] == p && after[..n] == before;
    assert after[n..] == [p] + after[n + 1..];
    if after == before + [p] {
      assert after[n..] == [p];
      assert PathFrom(fs, [p], p);
    } else {
      ConsPath(fs, p, q, after[n + 1..]);
    }
    assert Blocked(fs, after, n);
  }

  lemma LeavesLonger(fs: FileSystem, before: seq<Path>, after: seq<Path>, p: Path)
    requires Leaves(fs, before, after, p)
    ensures before <= after
  {
  }

  lemma ReportsOutward(fs: FileSystem, before: seq<Path>, after: seq<Path>, p: Path, q: Path, cycle: seq<Path>)
    requires Edge(fs, p, q) && Reports(fs, before + [p], after, q, cycle)
    ensures Reports(fs, before, after, p, cycle)
  {
    hide Edge;
    var n := |before|;
    assert after[..n + 1] == before + [p] && after[n] == p;
    var tail := after[n + 1..] + [cycle[0]];
    ConsPath(fs, p, q, tail);
    assert after[n..] + [cycle[0]] == [p] + tail;
  }

  /** An import that cannot be loaded with `p` on the stack keeps `p` from being loaded. */
  lemma BlockedImport(fs: FileSystem, p: Path, q: Path, before: seq<Path>)
    requires Edge(fs, p, q) && !(Sound(fs, q) && Clear(fs, before + [p], q))
    ensures !(Sound(fs, p) && Clear(fs, before, p))
  {
    hide Edge, Reachable;
    if Sound(fs, p) {
      SoundImport(fs, p, q);
      var x :| x in before + [p] && Reachable(fs, q, x);
      if x in before {
        ReachableImport(fs, p, q, x);
      } else {
        SoundNotSelfReaching(fs, p, q);
      }
    }
  }

  lemma SoundNotSelfReaching(fs: FileSystem, p: Path, q: Path)
    requires Sound(fs, p) && Edge(fs, p, q)
    ensures !Reachable(fs, q, p)
  {
    forall qs | PathFrom(fs, qs, q) ensures qs[|qs| - 1] != p {
      ConsPath(fs, p, q, qs);
      var ps := [p] + qs;
      assert ps[0] != ps[|ps| - 1];
    }
  }

  lemma ReachableImport(fs: FileSystem, p: Path, q: Path, x: Path)
    requires Edge(fs, p, q) && Reachable(fs, q, x)
    ensures Reachable(fs, p, x)
  {
    var qs :| PathFrom(fs, qs, q) && qs[|qs| - 1] == x;
    ConsPath(fs, p, q, qs);
    var ps := [p] + qs;
    assert PathFrom(fs, ps, p) && ps[|ps| - 1] == x;
  }

  lemma UnhealthyUnsound(fs: FileSystem, p: Path)
    requires p !in fs.files || !fs.files[p].Parsed?
    ensures !Sound(fs, p)
  {
    if Sound(fs, p) { SoundIsHealthy(fs, p); }
  }

  lemma UnresolvedUnsound(fs: FileSystem, p: Path, program: Program, i: nat)
    requires p in fs.files && fs.files[p] == Parsed(program) && i < |program.imports|
    requires fs.resolve(p, program.imports[i].path).None?
    ensures !Sound(fs, p)
  {
    assert Imports(fs, p)[i] == program.imports[i];
    if Sound(fs, p) { SoundIsHealthy(fs, p); }
  }

  lemma ImportEdge(fs: FileSystem, p: Path, program: Program, i: nat)
    requires p in fs.files && fs.files[p] == Parsed(program) && i < |program.imports|
    requires fs.resolve(p, program.imports[i].path).Some?
    ensures Edge(fs, p, fs.resolve(p, program.imports[i].path).value)
  {
    assert Imports(fs, p)[i] == program.imports[i];
  }

  /** A file whose imports are all cached may join the cache. */
  lemma CacheGrows(fs: FileSystem, st: State, p: Path, program: Program)
    requires Valid(fs, st) && p in st.stack && p in fs.files && fs.files[p] == Parsed(program)
    requires forall j :: 0 <= j < |program.imports| ==>
               var q := fs.resolve(p, program.imports[j].path); q.Some? && q.value in st.cache
    ensures Sound(fs, p) && CacheValid(fs, st.cache[p := program])
  {
    hide Sound;
    assert p in Elements(st.stack);
    forall q | Edge(fs, p, q) ensures q in st.cache {
      var i :| 0 <= i < |Imports(fs, p)| && fs.resolve(p, Imports(fs, p)[i].path) == Some(q);
      assert Imports(fs, p)[i] == program.imports[i];
    }
    SoundByImports(fs, p, st.cache.Keys);
    assert st.cache[p := program].Keys == st.cache.Keys + {p};
  }

  // ----- whatever was loaded before -----

  /** The state after a sequence of loads, failed ones included. */
  ghost function Loads(fs: FileSystem, paths: seq<string>): State
    requires WellFormed(fs)
  {
    if paths == [] then EMPTY else Load(fs, Loads(fs, paths[..|paths| - 1]), paths[|paths| - 1]).state
  }

  /** No file left on the stack is loadable. */
  ghost predicate Idle(fs: FileSystem, stack: seq<Path>) { forall x :: x in stack ==> !Sound(fs, x) }

  /** A sound file reaches only sound files. */
  lemma {:induction false} SoundReaches(fs: FileSystem, p: Path, x: Path)
    requires Sound(fs, p) && Reachable(fs, p, x)
    ensures Sound(fs, x)
  {
    var ps :| PathFrom(fs, ps, p) && ps[|ps| - 1] == x;
    SoundAlong(fs, ps, |ps| - 1);
  }

  lemma {:induction false} SoundAlong(fs: FileSystem, ps: seq<Path>, i: nat)
    requires IsPath(fs, ps) && Sound(fs, ps[0]) && i < |ps|
    ensures Sound(fs, ps[i])
  {
    if i > 0 {
      SoundAlong(fs, ps, i - 1);
      assert Edge(fs, ps[i - 1], ps[(i - 1) + 1]);
      SoundImport(fs, ps[i - 1], ps[i]);
    }
  }

  /** A sound file cannot reach what earlier failures left behind. */
  lemma IdleClear(fs: FileSystem, stack: seq<Path>, p: Path)
    requires Idle(fs, stack) && Sound(fs, p)
    ensures Clear(fs, stack, p)
  {
    hide Sound, Reachable;
    forall x | x in stack ensures !Reachable(fs, p, x) {
      if Reachable(fs, p, x) { SoundReaches(fs, p, x); }
    }
  }

  lemma {:induction false} BlockedIdle(fs: FileSystem, before: seq<Path>, after: seq<Path>)
    requires Idle(fs, before) && before <= after
    requires forall i :: |before| <= i < |after| ==> Blocked(fs, after, i)
    ensures Idle(fs, after)
    decreases |after|
  {
    hide Sound, Clear;
    if after != before {
      var n := |after| - 1;
      var shorter := after[..n];
      forall i | |before| <= i < |shorter| ensures Blocked(fs, shorter, i) {
        assert Blocked(fs, after, i) && shorter[..i] == after[..i];
      }
      BlockedIdle(fs, before, shorter);
      assert Blocked(fs, after, n);
      if Sound(fs, after[n]) { IdleClear(fs, shorter, after[n]); }
    }
  }

  /** An idle loader loads exactly the loadable files and stays idle. */
  lemma IdleLoad(fs: FileSystem, st: State, path: string)
    requires Valid(fs, st) && Idle(fs, st.stack)
    ensures var l := Load(fs, st, path);
            Valid(fs, l.state) && Idle(fs, l.state.stack) && (l.result.Ok? <==> Loadable(fs, path))
  {
    hide Sound, Reachable, Clear, Load;
    LoadCorrect(fs, st, path);
    LoadUnresolved(fs, st, path);
    var l := Load(fs, st, path);
    if fs.canonicalize(path).Some? {
      var p := fs.canonicalize(path).value;
      if Sound(fs, p) { IdleClear(fs, st.stack, p); }
      if l.result.Err? { BlockedIdle(fs, st.stack, l.state.stack); }
    }
  }

  lemma LoadUnresolved(fs: FileSystem, st: State, path: string)
    requires WellFormed(fs)
    ensures fs.canonicalize(path).None? ==> Load(fs, st, path) == Loaded(Err(ImportNotFound(path)), st)
  {
  }

  lemma {:induction false} LoadsIdle(fs: FileSystem, paths: seq<string>)
    requires WellFormed(fs)
    ensures Valid(fs, Loads(fs, paths)) && Idle(fs, Loads(fs, paths).stack)
  {
    hide Sound, Load;
    if paths != [] {
      LoadsIdle(fs, paths[..|paths| - 1]);
      IdleLoad(fs, Loads(fs, paths[..|paths| - 1]), paths[|paths| - 1]);
    }
  }

  /** After any history of loads, a load succeeds if and only if everything reachable from the file resolves,
      parses and is free of import cycles. */
  lemma LoadsAfterAnyHistory(fs: FileSystem, paths: seq<string>, path: string)
    requires WellFormed(fs)
    ensures Load(fs, Loads(fs, paths), path).result.Ok? <==> Loadable(fs, path)
  {
    hide Sound, Load;
    LoadsIdle(fs, paths);
    IdleLoad(fs, Loads(fs, paths), path);
  }

  // ----- reported cycles -----

  /** A reported cycle is one of the import graph if and only if it is closed by a file that this load pushed, or
      the part of the stack that was there before leads on to the loaded file along imports. */
  lemma CycleRealIff(fs: FileSystem, st: State, path: string)
    requires Valid(fs, st) && fs.canonicalize(path).Some?
    requires var r := Load(fs, st, path).result; r.Err? && r.error.CircularImport?
    ensures var p := fs.canonicalize(path).value;
            var cycle := Load(fs, st, path).result.error.cycle;
            && |cycle| >= 2 && cycle[0] == cycle[|cycle| - 1]
            && (RealCycle(fs, cycle) <==>
                  (cycle[0] in st.stack ==> IsPath(fs, st.stack[IndexOf(st.stack, cycle[0])..] + [p])))
  {
    hide Load, Sound, Reachable, Edge, Leaves;
    LoadCorrect(fs, st, path);
    var l := Load(fs, st, path);
    ReportedCycle(fs, st.stack, l.state.stack, fs.canonicalize(path).value, l.result.error.cycle);
  }

  /** If the file reaches nothing that is left on the stack, a cycle that its load reports is real. */
  lemma ClearCycleReal(fs: FileSystem, st: State, path: string)
    requires Valid(fs, st) && fs.canonicalize(path).Some? && Clear(fs, st.stack, fs.canonicalize(path).value)
    requires var r := Load(fs, st, path).result; r.Err? && r.error.CircularImport?
    ensures RealCycle(fs, Load(fs, st, path).result.error.cycle)
  {
    hide Load, Sound, Edge, Leaves, RealCycle;
    LoadCorrect(fs, st, path);
    CycleRealIff(fs, st, path);
    var l := Load(fs, st, path);
    var walk := l.state.stack[|st.stack|..] + [l.result.error.cycle[0]];
    assert walk[|walk| - 1] == l.result.error.cycle[0];
    assert Reachable(fs, fs.canonicalize(path).value, l.result.error.cycle[0]);
  }

  /** So it is with nothing left on the stack. */
  lemma FirstCycleReal(fs: FileSystem, st: State, path: string)
    requires Valid(fs, st) && st.stack == []
    requires var r := Load(fs, st, path).result; r.Err? && r.error.CircularImport?
    ensures RealCycle(fs, Load(fs, st, path).result.error.cycle)
  {
    hide Load;
    if fs.canonicalize(path).Some? { ClearCycleReal(fs, st, path); } else { LoadUnresolved(fs, st, path); }
  }

  lemma ReportedCycle(fs: FileSystem, before: seq<Path>, after: seq<Path>, p: Path, cycle: seq<Path>)
    requires Reports(fs, before, after, p, cycle)
    ensures cycle[0] == cycle[|cycle| - 1]
    ensures RealCycle(fs, cycle) <==> (cycle[0] in before ==> IsPath(fs, before[IndexOf(before, cycle[0])..] + [p]))
  {
    hide Edge;
    var i := IndexOf(after, cycle[0]);
    if cycle[0] in before {
      IndexInPrefix(before, after, cycle[0]);
      hide IndexOf;
      CycleBelow(fs, before, after, p, i, cycle[0]);
    } else {
      PushedLater(before, after, cycle[0]);
      hide IndexOf;
      CycleAbove(fs, before, after, i, cycle[0]);
    }
  }

  lemma CycleBelow(fs: FileSystem, before: seq<Path>, after: seq<Path>, p: Path, i: nat, target: Path)
    requires i < |before| && before <= after && PathFrom(fs, after[|before|..] + [target], p)
    ensures IsPath(fs, after[i..] + [target]) <==> IsPath(fs, before[i..] + [p])
  {
    hide IsPath;
    var walk := after[|before|..] + [target];
    assert after == before + after[|before|..];
    assert after[i..] + [target] == before[i..] + walk;
    JoinPaths(fs, before[i..], walk);
  }

  lemma CycleAbove(fs: FileSystem, before: seq<Path>, after: seq<Path>, i: nat, target: Path)
    requires |before| <= i < |after| && IsPath(fs, after[|before|..] + [target])
    ensures IsPath(fs, after[i..] + [target])
  {
    hide IsPath;
    var walk := after[|before|..] + [target];
    assert after[i..] + [target] == walk[i - |before|..];
    TailPath(fs, walk, i - |before|);
  }

  lemma PushedLater(before: seq<Path>, after: seq<Path>, p: Path)
    requires before <= after && p in after && p !in before
    ensures IndexOf(after, p) >= |before|
  {
    assert forall k :: 0 <= k < |before| ==> before[k] == after[k];
  }

  lemma {:induction false} IndexInPrefix(before: seq<Path>, after: seq<Path>, p: Path)
    requires before <= after && p in before
    ensures p in after && IndexOf(after, p) == IndexOf(before, p)
    decreases |before|
  {
    assert after[0] == before[0];
    if before[0] != p {
      assert before == [before[0]] + before[1..];
      IndexInPrefix(before[1..], after[1..], p);
    }
  }

  lemma TailPath(fs: FileSystem, ps: seq<Path>, i: nat)
    requires IsPath(fs, ps) && i < |ps|
    ensures IsPath(fs, ps[i..])
  {
    hide Edge;
    var tail := ps[i..];
    forall k | 0 <= k < |tail| - 1 ensures Edge(fs, tail[k], tail[k + 1]) {
      assert Edge(fs, ps[i + k], ps[i + k + 1]);
    }
  }

  /** Two walks in a row are a walk if and only if the first leads on to the start of the second. */
  lemma JoinPaths(fs: FileSystem, ps: seq<Path>, qs: seq<Path>)
    requires ps != [] && IsPath(fs, qs)
    ensures IsPath(fs, ps + qs) <==> IsPath(fs, ps + [qs[0]])
  {
    hide Edge;
    var both, short := ps + qs, ps + [qs[0]];
    if IsPath(fs, both) {
      forall k | 0 <= k < |short| - 1 ensures Edge(fs, short[k], short[k + 1]) {
        assert Edge(fs, both[k], both[k + 1]);
      }
    }
    if IsPath(fs, short) {
      forall k | 0 <= k < |both| - 1 ensures Edge(fs, both[k], both[k + 1]) {
        if k < |ps| {
          assert Edge(fs, short[k], short[k + 1]);
        } else {
          assert Edge(fs, qs[k - |ps|], qs[k - |ps| + 1]);
        }
      }
    }
  }

  // ----- what the other errors say -----

  /** Something reachable from `p` is as the error says: a file that does not parse; a file that cannot be read, or an
      import that leads nowhere. */
  ghost predicate Explains(fs: FileSystem, p: Path, e: LoadError) {
    match e
    case ParseError(q) => Reachable(fs, p, q) && q in fs.files && fs.files[q].Unparsable?
    case ImportNotFound(t) =>
      || (Reachable(fs, p, t) && t in fs.files && fs.files[t].Unreadable?)
      || (exists q, i :: Reachable(fs, p, q) && 0 <= i < |Imports(fs, q)| && Imports(fs, q)[i].path == t
                         && fs.resolve(q, t) == None)
    case CircularImport(_) => true
  }

  lemma ExplainsOutward(fs: FileSystem, p: Path, q: Path, e: LoadError)
    requires Edge(fs, p, q) && Explains(fs, q, e)
    ensures Explains(fs, p, e)
  {
    forall x | Reachable(fs, q, x) ensures Reachable(fs, p, x) { ReachableImport(fs, p, q, x); }
    hide Reachable, Edge;
  }

  /** A path that leads nowhere is reported as it is; of a file, an error other than a cycle names something wrong that
      its imports lead to. */
  lemma {:induction false} ErrorTells(fs: FileSystem, st: State, path: string)
    requires WellFormed(fs)
    ensures fs.canonicalize(path) == None ==> Load(fs, st, path) == Loaded(Err(ImportNotFound(path)), st)
    ensures fs.canonicalize(path).Some? && Load(fs, st, path).result.Err? ==>
              Explains(fs, fs.canonicalize(path).value, Load(fs, st, path).result.error)
    decreases fs.files.Keys - Elements(st.stack), 0, 0
  {
    hide Reachable, Explains, LoadImports;
    if fs.canonicalize(path).Some? {
      var p := fs.canonicalize(path).value;
      if p !in st.cache && p !in st.stack {
        var pushed := st.(stack := st.stack + [p]);
        assert p in fs.files.Keys - Elements(st.stack) && p !in fs.files.Keys - Elements(pushed.stack);
        ReachableSelf(fs, p);
        if fs.files[p].Parsed? { ImportErrorTells(fs, pushed, p, fs.files[p].program, 0); }
        else { BadFileTells(fs, p); }
      } else if p !in st.cache {
        CycleTells(fs, p, CycleFrom(st.stack, p));
      }
    }
  }

  lemma BadFileTells(fs: FileSystem, p: Path)
    requires p in fs.files && Reachable(fs, p, p)
    ensures fs.files[p].Unparsable? ==> Explains(fs, p, ParseError(p))
    ensures fs.files[p].Unreadable? ==> Explains(fs, p, ImportNotFound(p))
  {
    hide Reachable;
  }

  lemma CycleTells(fs: FileSystem, p: Path, cycle: seq<Path>)
    ensures Explains(fs, p, CircularImport(cycle))
  {
  }

  lemma {:induction false} ImportErrorTells(fs: FileSystem, st: State, p: Path, program: Program, i: nat)
    requires WellFormed(fs) && st.stack != [] && i <= |program.imports|
    requires p in fs.files && fs.files[p] == Parsed(program) && Reachable(fs, p, p)
    ensures LoadImports(fs, st, p, program, i).result.Err? ==>
              Explains(fs, p, LoadImports(fs, st, p, program, i).result.error)
    decreases fs.files.Keys - Elements(st.stack), 1, |program.imports| - i
  {
    hide Reachable, Explains, Load;
    if i < |program.imports| {
      assert Imports(fs, p) == program.imports;
      match fs.resolve(p, program.imports[i].path)
      case None => NowhereTells(fs, p, i);
      case Some(target) =>
        var l := Load(fs, st, target);
        ErrorTells(fs, st, target);
        if l.result.Err? {
          ImportEdge(fs, p, program, i);
          ExplainsOutward(fs, p, target, l.result.error);
        } else {
          ImportErrorTells(fs, l.state, p, program, i + 1);
        }
    }
  }

  lemma NowhereTells(fs: FileSystem, p: Path, i: nat)
    requires Reachable(fs, p, p) && i < |Imports(fs, p)| && fs.resolve(p, Imports(fs, p)[i].path) == None
    ensures Explains(fs, p, ImportNotFound(Imports(fs, p)[i].path))
  {
    hide Reachable, Imports;
  }

  // ----- a cycle that is none -----

  const IMPORTER: Program := Program([Import("a", "x")], [], [], [], [], [], [], None)

  /** "b" imports "a", which does not parse. */
  const BROKEN: FileSystem :=
    FileSystem(map["a" := Unparsable, "b" := Parsed(IMPORTER)],
               (p: string) => if p == "a" || p == "b" then Some(p) else None,
               (p: Path, i: string) => if i == "a" || i == "b" then Some(i) else None)

  const LEFT: State := State(map[], ["a"])

  const PUSHED: State := State(map[], ["a", "b"])

  const BOGUS: seq<Path> := ["a", "b", "a"]

  lemma BrokenLeft()
    ensures WellFormed(BROKEN) && Loads(BROKEN, ["a"]) == LEFT
  {
    assert ["a"][..0] == [] && ["a"] == [] + ["a"];
    assert Load(BROKEN, EMPTY, "a").state == LEFT;
    assert Loads(BROKEN, []) == EMPTY;
  }

  lemma ImporterFails()
    ensures WellFormed(BROKEN) && LoadImports(BROKEN, PUSHED, "b", IMPORTER, 0).result == Err(CircularImport(BOGUS))
  {
    assert CycleFrom(["a", "b"], "a") == BOGUS;
    hide IndexOf, CycleFrom;
    assert Load(BROKEN, PUSHED, "a").result == Err(CircularImport(BOGUS));
  }

  lemma NoCycle()
    ensures !RealCycle(BROKEN, BOGUS)
  {
    assert Imports(BROKEN, "a") == [];
    assert IsPath(BROKEN, BOGUS) ==> Edge(BROKEN, BOGUS[0], BOGUS[0 + 1]);
  }

  /** Loading the broken file first leaves it on the stack; loading its importer next reports a cycle, although the
      broken file imports nothing. */
  lemma BogusCycle()
    ensures WellFormed(BROKEN) && Loads(BROKEN, ["a"]) == State(map[], ["a"])
    ensures Load(BROKEN, Loads(BROKEN, ["a"]), "b").result == Err(CircularImport(["a", "b", "a"]))
    ensures !RealCycle(BROKEN, ["a", "b", "a"])
  {
    BrokenLeft();
    ImporterFails();
    NoCycle();
    hide LoadImports, Loads, RealCycle, WellFormed, IndexOf, CycleFrom;
    assert ["a"] + ["b"] == ["a", "b"];
    assert Load(BROKEN, LEFT, "b") == LoadImports(BROKEN, PUSHED, "b", IMPORTER, 0);
  }
}
