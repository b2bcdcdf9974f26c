/** The module loader: a depth-first search with a cache and a stack for cycle detection, and a second search
    that relies on the first for its own termination. */
module Loader {
  import opened Base
  import opened Programs
  import opened ImportGraphs
  import opened Loading

  class ModuleLoader {
    const fs: FileSystem
    var cache: map<Path, Program>
    var loadingStack: seq<Path>

    ghost function View(): State
      reads this
    {
      State(cache, loadingStack)
    }

    /** Kept by every load, failed ones included: a failure leaves its files on the stack, but none of them loadable. */
    ghost predicate Ready()
      reads this
    {
      Valid(fs, View()) && Idle(fs, loadingStack)
    }

    constructor (fs: FileSystem)
      requires WellFormed(fs)
      ensures Ready() && this.fs == fs && View() == EMPTY
    {
      this.fs, cache, loadingStack := fs, map[], [];
    }

    method FormatImportCycle(target: Path) returns (cycle: seq<Path>)
      requires target in loadingStack
      ensures cycle == CycleFrom(loadingStack, target)
    {
      var i := 0;
      while loadingStack[i] != target
        invariant 0 <= i < |loadingStack| && target in loadingStack[i..]
        invariant IndexOf(loadingStack, target) == i + IndexOf(loadingStack[i..], target)
        decreases |loadingStack| - i
      {
        assert loadingStack[i..] == [loadingStack[i]] + loadingStack[i + 1..];
        assert loadingStack[i..][1..] == loadingStack[i + 1..];
        i := i + 1;
      }
      cycle := loadingStack[i..] + [target];
    }

    /** Loads and fails, caches and leaves behind exactly as specified, in any state. */
    method LoadModule(path: string) returns (r: Base.Result<Program, LoadError>)
      requires Valid(fs, View())
      modifies this`cache, this`loadingStack
      ensures Loaded(r, View()) == Load(fs, old(View()), path)
      ensures Valid(fs, View())
      ensures old(Idle(fs, loadingStack)) ==> Ready() && (r.Ok? <==> Loadable(fs, path))
      ensures r.Ok? ==> loadingStack == old(loadingStack) && fs.canonicalize(path).Some?
                        && fs.canonicalize(path).value in cache && cache[fs.canonicalize(path).value] == r.value
      decreases fs.files.Keys - Elements(loadingStack)
    {
      hide Sound, Edge, Closed, CacheValid, Idle, Loadable, Leaves, Reports, CycleFrom;
      ghost var before := View();
      LoadCorrect(fs, before, path);
      LoadUnresolved(fs, before, path);
      if Idle(fs, loadingStack) { IdleLoad(fs, before, path); }
      var canonical := fs.canonicalize(path);
      if canonical.None? {
        return Err(ImportNotFound(path));
      }
      var p := canonical.value;
      if p in cache {
        return Ok(cache[p]);
      }
      if p in loadingStack {
        var cycle := FormatImportCycle(p);
        return Err(CircularImport(cycle));
      }
      loadingStack := loadingStack + [p];
      assert Elements(loadingStack) == Elements(before.stack) + {p};
      assert p in fs.files.Keys - Elements(before.stack) && p !in fs.files.Keys - Elements(loadingStack);
      if !fs.files[p].Parsed? {
        return Err(if fs.files[p].Unreadable? then ImportNotFound(p) else ParseError(p));
      }
      var program := fs.files[p].program;
      for i := 0 to |program.imports|
        invariant Valid(fs, View()) && loadingStack == before.stack + [p]
        invariant LoadImports(fs, View(), p, program, i) == Load(fs, before, path)
      {
        var target := fs.resolve(p, program.imports[i].path);
        if target.None? {
          return Err(ImportNotFound(program.imports[i].path));
        }
        var loaded := LoadModule(target.value);
        if loaded.Err? {
          return Err(loaded.error);
        }
      }
      loadingStack := loadingStack[..|loadingStack| - 1];
      cache := cache[p := program];
      return Ok(program);
    }

    // ----- the module tree -----

    /** Registered modules are sound files with their programs; every declared alias, and no other, maps to
        the resolved file, which is registered too. */
    ghost predicate RegistryValid(registry: map<Path, ModuleInfo>) {
      forall p :: p in registry ==>
        && p in fs.files && fs.files[p] == Parsed(registry[p].program) && Sound(fs, p)
        && AliasesResolved(p, registry[p].program.imports, registry[p].imports)
        && (forall i :: 0 <= i < |registry[p].program.imports| ==>
              fs.resolve(p, registry[p].program.imports[i].path).value in registry)
    }

    ghost predicate AliasesResolved(p: Path, imports: seq<Import>, aliases: map<string, Path>) {
      && (forall i :: 0 <= i < |imports| ==>
            && fs.resolve(p, imports[i].path).Some? && imports[i].alias in aliases
            && aliases[imports[i].alias] == fs.resolve(p, imports[i].path).value)
      && (forall a :: a in aliases ==> exists i :: 0 <= i < |imports| && imports[i].alias == a)
    }

    /** Where the search has come from: an import path whose root is already known to be sound. */
    ghost predicate Trail(trail: seq<Path>, path: string) {
      trail != [] ==>
        && IsPath(fs, trail) && Sound(fs, trail[0])
        && fs.canonicalize(path).Some? && Edge(fs, trail[|trail| - 1], fs.canonicalize(path).value)
    }

    lemma TrailBound(trail: seq<Path>, p: Path)
      requires WellFormed(fs) && trail != [] && IsPath(fs, trail) && Sound(fs, trail[0])
      requires Edge(fs, trail[|trail| - 1], p)
      ensures PathFrom(fs, trail + [p], trail[0])
      ensures |trail| < |fs.files.Keys|
    {
      var ps := trail + [p];
      forall i | 0 <= i < |ps| - 1 ensures Edge(fs, ps[i], ps[i + 1]) {
        if i < |trail| - 1 { assert Edge(fs, trail[i], trail[i + 1]); }
      }
      assert PathFrom(fs, ps, trail[0]);
      forall i | 0 <= i < |ps| ensures ps[i] in fs.files {
        PrefixHealthy(ps, i);
      }
      NoDupSize(ps, fs.files.Keys);
    }

    lemma PrefixHealthy(ps: seq<Path>, i: nat)
      requires IsPath(fs, ps) && Sound(fs, ps[0]) && i < |ps|
      ensures Healthy(fs, ps[i])
    {
      var prefix := ps[..i + 1];
      forall k | 0 <= k < |prefix| - 1 ensures Edge(fs, prefix[k], prefix[k + 1]) {
        assert Edge(fs, ps[k], ps[k + 1]);
      }
      assert PathFrom(fs, prefix, ps[0]);
    }

    /** Register a module after all of its imports. The recursion keeps no stack of its own: it ends because
        an import path from a sound root never repeats a file. */
    method LoadRecursive(path: string, registry: map<Path, ModuleInfo>, ghost trail: seq<Path>)
      returns (r: Base.Result<map<Path, ModuleInfo>, LoadError>)
      requires Ready() && RegistryValid(registry) && Trail(trail, path)
      modifies this`cache, this`loadingStack
      ensures Ready() && (r.Ok? <==> Loadable(fs, path))
      ensures r.Ok? ==> loadingStack == old(loadingStack) && RegistryValid(r.value)
      ensures r.Ok? ==> registry.Keys + {fs.canonicalize(path).value} <= r.value.Keys
      ensures r.Ok? ==> forall q :: q in r.value && q !in registry ==> Reachable(fs, fs.canonicalize(path).value, q)
      decreases |fs.files.Keys| - |trail|
    {
      hide Sound, RegistryValid, AliasesResolved, Reachable, IsPath, Closed, Edge;
      var canonical := fs.canonicalize(path);
      if canonical.None? {
        return Err(ImportNotFound(path));
      }
      var p := canonical.value;
      if p in registry {
        RegisteredSound(registry, p);
        return Ok(registry);
      }
      assert fs.canonicalize(p) == Some(p);
      var loaded := LoadModule(p);
      if loaded.Err? {
        return Err(loaded.error);
      }
      var program := loaded.value;
      ghost var longer := trail + [p];
      ExtendTrail(trail, p);
      SoundIsHealthy(fs, p);
      var tree := registry;
      var aliases: map<string, Path> := map[];
      NoAliases(p, program.imports);
      for i := 0 to |program.imports|
        invariant Ready() && loadingStack == old(loadingStack) && RegistryValid(tree) && registry.Keys <= tree.Keys
        invariant AliasesResolved(p, program.imports[..i], aliases)
        invariant forall j :: 0 <= j < i ==>
                    var q := fs.resolve(p, program.imports[j].path); q.Some? && q.value in tree
        invariant forall q :: q in tree && q !in registry ==> Reachable(fs, p, q)
      {
        HealthyImport(p, program, i);
        var target := fs.resolve(p, program.imports[i].path).value;
        AliasStep(p, program.imports, i, aliases);
        aliases := aliases[program.imports[i].alias := target];
        SoundImport(fs, p, target);
        var next := LoadRecursive(target, tree, longer);
        forall q | q in next.value && q !in registry ensures Reachable(fs, p, q) {
          if q !in tree { ReachableImport(fs, p, target, q); }
        }
        tree := next.value;
      }
      RegisterModule(tree, p, program, aliases);
      return Ok(tree[p := ModuleInfo(program, aliases)]);
    }

    lemma NoAliases(p: Path, imports: seq<Import>)
      ensures AliasesResolved(p, imports[..0], map[])
    {
    }

    lemma ExtendTrail(trail: seq<Path>, p: Path)
      requires WellFormed(fs) && p in fs.files && Sound(fs, p)
      requires trail != [] ==> IsPath(fs, trail) && Sound(fs, trail[0]) && Edge(fs, trail[|trail| - 1], p)
      ensures IsPath(fs, trail + [p]) && Sound(fs, (trail + [p])[0]) && (trail + [p])[|trail|] == p
      ensures |trail| < |fs.files.Keys|
    {
      if trail != [] {
        TrailBound(trail, p);
      } else {
        SubsetSize({p}, fs.files.Keys);
      }
    }

    lemma HealthyImport(p: Path, program: Program, i: nat)
      requires WellFormed(fs) && Healthy(fs, p) && fs.files[p] == Parsed(program) && i < |program.imports|
      ensures var target := fs.resolve(p, program.imports[i].path);
              target.Some? && Edge(fs, p, target.value) && fs.canonicalize(target.value) == target
      ensures DistinctAliases(program.imports)
    {
      assert Imports(fs, p)[i] == program.imports[i];
    }

    lemma RegisterModule(tree: map<Path, ModuleInfo>, p: Path, program: Program, aliases: map<string, Path>)
      requires RegistryValid(tree) && p in fs.files && fs.files[p] == Parsed(program) && Sound(fs, p)
      requires AliasesResolved(p, program.imports[..|program.imports|], aliases)
      requires forall j :: 0 <= j < |program.imports| ==>
                 var q := fs.resolve(p, program.imports[j].path); q.Some? && q.value in tree
      ensures RegistryValid(tree[p := ModuleInfo(program, aliases)])
      ensures Reachable(fs, p, p)
    {
      hide Sound, AliasesResolved;
      assert program.imports[..|program.imports|] == program.imports;
      assert PathFrom(fs, [p], p);
    }

    lemma AliasStep(p: Path, imports: seq<Import>, i: nat, aliases: map<string, Path>)
      requires i < |imports| && AliasesResolved(p, imports[..i], aliases) && fs.resolve(p, imports[i].path).Some?
      requires DistinctAliases(imports)
      ensures AliasesResolved(p, imports[..i + 1], aliases[imports[i].alias := fs.resolve(p, imports[i].path).value])
    {
      var more := aliases[imports[i].alias := fs.resolve(p, imports[i].path).value];
      assert imports[..i + 1] == imports[..i] + [imports[i]];
      forall j | 0 <= j < i ensures more[imports[j].alias] == fs.resolve(p, imports[j].path).value {
        assert imports[..i][j] == imports[j];
      }
      var upTo := imports[..i + 1];
      forall a | a in more ensures exists j :: 0 <= j < |upTo| && upTo[j].alias == a {
        if a == imports[i].alias {
          assert upTo[i].alias == a;
        } else {
          var before := imports[..i];
          var j :| 0 <= j < |before| && before[j].alias == a;
          assert upTo[j].alias == a;
        }
      }
    }

    /** The tree holds exactly the files reachable from the root. */
    method LoadModuleTree(root: string) returns (r: Base.Result<map<Path, ModuleInfo>, LoadError>)
      requires Ready()
      modifies this`cache, this`loadingStack
      ensures Ready() && (r.Ok? <==> Loadable(fs, root))
      ensures r.Ok? ==> RegistryValid(r.value)
      ensures r.Ok? ==> forall q :: q in r.value <==> Reachable(fs, fs.canonicalize(root).value, q)
    {
      r := LoadRecursive(root, map[], []);
      if r.Ok? {
        var p := fs.canonicalize(root).value;
        RegistryClosed(r.value);
        forall q | Reachable(fs, p, q) ensures q in r.value {
          var ps :| PathFrom(fs, ps, p) && ps[|ps| - 1] == q;
          ClosedPath(fs, r.value.Keys, ps, |ps| - 1);
        }
      }
    }

    lemma RegisteredSound(registry: map<Path, ModuleInfo>, p: Path)
      requires RegistryValid(registry) && p in registry
      ensures Sound(fs, p)
    {
      hide Sound;
    }

    lemma RegistryClosed(registry: map<Path, ModuleInfo>)
      requires RegistryValid(registry)
      ensures Closed(fs, registry.Keys)
    {
      forall p, q | p in registry && Edge(fs, p, q) ensures q in registry {
        var i :| 0 <= i < |Imports(fs, p)| && fs.resolve(p, Imports(fs, p)[i].path) == Some(q);
        assert Imports(fs, p) == registry[p].program.imports;
      }
    }
  }
}
