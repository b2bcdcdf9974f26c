/** What `foreach` does to the state: the body runs on every item of the selected array, in order, and nothing else
    in the state changes. */
module ForeachRuns {
  import opened Base
  import opened JsonValues
  import opened Ast
  import opened Responses
  import opened Runtime
  import opened Steps
  import opened Interpreter

  // ----- selector paths -----

  lemma {:induction false} SetThenGet(v: Json, parts: seq<string>, x: Json)
    requires GetPath(v, parts).Some?
    ensures GetPath(SetPath(v, parts, x), parts) == Some(x)
    decreases |parts|
  {
    if parts != [] {
      match v
      case Object(fields) => SetThenGet(fields[parts[0]], parts[1..], x);
      case Array(items) => SetThenGet(items[ParseUnsigned(parts[0]).value], parts[1..], x);
    }
  }

  /** Taking a value out and putting it back changes nothing. */
  lemma {:induction false} GetThenSet(v: Json, parts: seq<string>)
    requires GetPath(v, parts).Some?
    ensures SetPath(v, parts, GetPath(v, parts).value) == v
    decreases |parts|
  {
    if parts != [] {
      match v
      case Object(fields) =>
        GetThenSet(fields[parts[0]], parts[1..]);
        assert fields[parts[0] := fields[parts[0]]] == fields;
      case Array(items) =>
        var i := ParseUnsigned(parts[0]).value;
        GetThenSet(items[i], parts[1..]);
        assert items[i := items[i]] == items;
    }
  }

  /** Only the last write through a path counts. */
  lemma {:induction false} SetTwice(v: Json, parts: seq<string>, x: Json, y: Json)
    requires GetPath(v, parts).Some?
    ensures SetPath(SetPath(v, parts, x), parts, y) == SetPath(v, parts, y)
    decreases |parts|
  {
    if parts != [] {
      match v
      case Object(fields) =>
        var k := parts[0];
        SetTwice(fields[k], parts[1..], x, y);
        assert fields[k := SetPath(fields[k], parts[1..], x)][k := SetPath(fields[k], parts[1..], y)]
            == fields[k := SetPath(fields[k], parts[1..], y)];
      case Array(items) =>
        var i := ParseUnsigned(parts[0]).value;
        SetTwice(items[i], parts[1..], x, y);
        assert items[i := SetPath(items[i], parts[1..], x)][i := SetPath(items[i], parts[1..], y)]
            == items[i := SetPath(items[i], parts[1..], y)];
    }
  }

  /** The two paths part ways inside `v`: by key in an object, by index in an array. */
  predicate Apart(v: Json, p: seq<string>, q: seq<string>)
    decreases |p|
  {
    p != [] && q != [] &&
    match v
    case Object(fields) => p[0] != q[0] || (p[0] in fields && Apart(fields[p[0]], p[1..], q[1..]))
    case Array(items) =>
      var i, j := ParseUnsigned(p[0]), ParseUnsigned(q[0]);
      i.Some? && j.Some? && (i != j || (i.value < |items| && Apart(items[i.value], p[1..], q[1..])))
    case _ => false
  }

  /** Writing through one path leaves what lies on another. */
  lemma {:induction false} SetElsewhere(v: Json, p: seq<string>, x: Json, q: seq<string>)
    requires Apart(v, p, q)
    ensures GetPath(SetPath(v, p, x), q) == GetPath(v, q)
    decreases |p|
  {
    match v
    case Object(fields) =>
      if p[0] == q[0] { SetElsewhere(fields[p[0]], p[1..], x, q[1..]); }
    case Array(items) =>
      if ParseUnsigned(p[0]) == ParseUnsigned(q[0]) {
        SetElsewhere(items[ParseUnsigned(p[0]).value], p[1..], x, q[1..]);
      }
  }

  // ----- items -----

  /** The body turns the item into `out` and the world `w` into `after`. */
  predicate ItemRun(env: Env, fuel: nat, body: Pipeline, item: Json, out: Json, w: World, after: World) {
    var r := RunPipeline(env, fuel, body, item, None, w);
    r.Value? && r.out.body == out && r.w == after
  }

  /** `outs[i]` is the output of the body on `items[i]`, each run starting in the world the previous one left. */
  predicate ItemRuns(env: Env, fuel: nat, body: Pipeline, items: seq<Json>, outs: seq<Json>, worlds: seq<World>) {
    && |outs| == |items| && |worlds| == |items| + 1
    && forall i :: 0 <= i < |items| ==> ItemRun(env, fuel, body, items[i], outs[i], worlds[i], worlds[i + 1])
  }

  lemma FirstItem(env: Env, fuel: nat, parts: seq<string>, body: Pipeline, left: seq<Json>, done: seq<Json>, f: Frame,
                  w: World)
    requires fuel > 0 && left != []
    ensures var r := RunPipeline(env, fuel - 1, body, left[0], None, w);
            var d := Drive(env, fuel, NextItem(parts, body, left, done, f, w));
            && (r.Value? ==> d == Drive(env, fuel, NextItem(parts, body, left[1..], done + [r.out.body], f, r.w)))
            && (r.Failed? ==> d == Ended(Raised(r.error, r.w)))
            && (r.Stuck? ==> d.OutOfFuel?)
  {
    hide RunPipeline;
  }

  lemma {:induction false} ItemsRun(env: Env, fuel: nat, parts: seq<string>, body: Pipeline, left: seq<Json>,
                                    done: seq<Json>,
                                    f: Frame, w: World)
    returns (outs: seq<Json>, worlds: seq<World>)
    requires fuel > 0
    requires var r := Drive(env, fuel, NextItem(parts, body, left, done, f, w)); r.Ended? && r.end.Continue?
    ensures ItemRuns(env, fuel - 1, body, left, outs, worlds) && worlds[0] == w
    decreases |left|
  {
    if left == [] {
      outs, worlds := [], [w];
    } else {
      hide RunPipeline, Drive, NextItem;
      FirstItem(env, fuel, parts, body, left, done, f, w);
      var r := RunPipeline(env, fuel - 1, body, left[0], None, w);
      var later, after := ItemsRun(env, fuel, parts, body, left[1..], done + [r.out.body], f, r.w);
      outs, worlds := [r.out.body] + later, [w] + after;
      assert ItemRun(env, fuel - 1, body, left[0], r.out.body, w, r.w);
      hide ItemRun;
      forall i | 0 <= i < |left| ensures ItemRun(env, fuel - 1, body, left[i], outs[i], worlds[i], worlds[i + 1]) {
        if i > 0 {
          assert ItemRun(env, fuel - 1, body, left[1..][i - 1], later[i - 1], after[i - 1], after[i]);
        }
      }
    }
  }

  lemma {:induction false} ItemsComplete(env: Env, fuel: nat, parts: seq<string>, body: Pipeline, left: seq<Json>,
                                         done: seq<Json>,
                                         f: Frame, outs: seq<Json>, worlds: seq<World>)
    requires fuel > 0 && ItemRuns(env, fuel - 1, body, left, outs, worlds)
    ensures Drive(env, fuel, NextItem(parts, body, left, done, f, worlds[0]))
         == Ended(Continue(f.(state := SetPath(f.state, parts, Array(done + outs))), worlds[|left|]))
    decreases |left|
  {
    if left == [] {
      assert done + outs == done;
    } else {
      hide RunPipeline, Drive, NextItem, SetPath;
      TakeItem(env, fuel, parts, body, left, done, f, worlds[0], outs[0], worlds[1]);
      LaterItems(env, fuel - 1, body, left, outs, worlds);
      hide ItemRun, ItemRuns;
      ItemsComplete(env, fuel, parts, body, left[1..], done + [outs[0]], f, outs[1..], worlds[1..]);
      assert done + [outs[0]] + outs[1..] == done + outs;
    }
  }

  lemma TakeItem(env: Env, fuel: nat, parts: seq<string>, body: Pipeline, left: seq<Json>, done: seq<Json>, f: Frame,
                 w: World,
                 out: Json, after: World)
    requires fuel > 0 && left != [] && ItemRun(env, fuel - 1, body, left[0], out, w, after)
    ensures Drive(env, fuel, NextItem(parts, body, left, done, f, w))
         == Drive(env, fuel, NextItem(parts, body, left[1..], done + [out], f, after))
  {
    hide RunPipeline, Drive, NextItem;
    FirstItem(env, fuel, parts, body, left, done, f, w);
  }

  lemma LaterItems(env: Env, fuel: nat, body: Pipeline, items: seq<Json>, outs: seq<Json>, worlds: seq<World>)
    requires ItemRuns(env, fuel, body, items, outs, worlds) && items != []
    ensures ItemRuns(env, fuel, body, items[1..], outs[1..], worlds[1..])
  {
    hide ItemRun;
    forall i | 0 <= i < |items| - 1
      ensures ItemRun(env, fuel, body, items[1..][i], outs[1..][i], worlds[1..][i], worlds[1..][i + 1])
    {
      assert ItemRun(env, fuel, body, items[i + 1], outs[i + 1], worlds[i + 1], worlds[i + 2]);
    }
  }

  /** A `foreach` that goes through has run its body once on every item of the selected array, in order; the results, as
      many as there were items, stand where the items stood, and everything on other paths is as it was. */
  lemma ForeachMaps(env: Env, fuel: nat, selector: string, body: Pipeline, f: Frame, w: World)
    returns (items: seq<Json>, outs: seq<Json>, worlds: seq<World>)
    requires fuel > 0
    requires var r := Drive(env, fuel, PlanForeach(selector, body, f, w)); r.Ended? && r.end.Continue?
    ensures var parts := ParsePath(selector);
            var end := Drive(env, fuel, PlanForeach(selector, body, f, w)).end;
            && GetPath(f.state, parts) == Some(Array(items))
            && ItemRuns(env, fuel - 1, body, items, outs, worlds) && worlds[0] == w
            && end == Continue(f.(state := SetPath(f.state, parts, Array(outs))), worlds[|items|])
            && GetPath(end.frame.state, parts) == Some(Array(outs))
            && forall q :: Apart(f.state, parts, q) ==> GetPath(end.frame.state, q) == GetPath(f.state, q)
  {
    hide ParsePath, NextItem, GetPath, SetPath, Apart, RunPipeline, Drive, PlanForeach;
    var parts := ParsePath(selector);
    ForeachTakes(env, fuel, selector, body, f, w);
    items := GetPath(f.state, parts).value.items;
    var emptied := f.(state := SetPath(f.state, parts, Null));
    outs, worlds := ItemsRun(env, fuel, parts, body, items, [], emptied, w);
    ItemsComplete(env, fuel, parts, body, items, [], emptied, outs, worlds);
    hide ItemRuns;
    assert [] + outs == outs;
    SetTwice(f.state, parts, Null, Array(outs));
    SetThenGet(f.state, parts, Array(outs));
    forall q | Apart(f.state, parts, q)
      ensures GetPath(SetPath(f.state, parts, Array(outs)), q) == GetPath(f.state, q) {
      SetElsewhere(f.state, parts, Array(outs), q);
    }
  }

  lemma ForeachTakes(env: Env, fuel: nat, selector: string, body: Pipeline, f: Frame, w: World)
    ensures var parts := ParsePath(selector);
            var v := GetPath(f.state, parts);
            var r := Drive(env, fuel, PlanForeach(selector, body, f, w));
            if v.Some? && v.value.Array?
            then r == Drive(env, fuel, NextItem(parts, body, v.value.items, [],
                                                f.(state := SetPath(f.state, parts, Null)), w))
            else r == Ended(Raised(MiddlewareFailed("foreach: path '" + selector
                                                    + "' is not an array or does not exist"), w))
  {
    hide ParsePath, NextItem, GetPath, SetPath;
  }

  /** And it goes through whenever the selector leads to an array and every body run ends with a value. */
  lemma ForeachCompletes(env: Env, fuel: nat, selector: string, body: Pipeline, f: Frame, items: seq<Json>,
                         outs: seq<Json>,
                         worlds: seq<World>)
    requires fuel > 0 && GetPath(f.state, ParsePath(selector)) == Some(Array(items))
    requires ItemRuns(env, fuel - 1, body, items, outs, worlds)
    ensures Drive(env, fuel, PlanForeach(selector, body, f, worlds[0]))
         == Ended(Continue(f.(state := SetPath(f.state, ParsePath(selector), Array(outs))), worlds[|items|]))
  {
    hide ParsePath, NextItem, GetPath, SetPath, RunPipeline, Drive, PlanForeach, ItemRun;
    var parts := ParsePath(selector);
    ForeachTakes(env, fuel, selector, body, f, worlds[0]);
    var emptied := f.(state := SetPath(f.state, parts, Null));
    ItemsComplete(env, fuel, parts, body, items, [], emptied, outs, worlds);
    assert [] + outs == outs;
    SetTwice(f.state, parts, Null, Array(outs));
  }

  lemma {:induction false} ItemsFail(env: Env, fuel: nat, parts: seq<string>, body: Pipeline, left: seq<Json>,
                                     done: seq<Json>, f: Frame, k: nat, outs: seq<Json>, worlds: seq<World>,
                                     e: WebPipeError, v: World)
    requires fuel > 0 && k < |left| && ItemRuns(env, fuel - 1, body, left[..k], outs, worlds)
    requires RunPipeline(env, fuel - 1, body, left[k], None, worlds[k]) == Failed(e, v)
    ensures Drive(env, fuel, NextItem(parts, body, left, done, f, worlds[0])) == Ended(Raised(e, v))
    decreases k
  {
    if k == 0 {
      hide Drive, NextItem, RunPipeline, ItemRuns;
      FirstItem(env, fuel, parts, body, left, done, f, worlds[0]);
    } else {
      assert left[..k][0] == left[0] && left[..k][1..] == left[1..][..k - 1];
      assert ItemRun(env, fuel - 1, body, left[..k][0], outs[0], worlds[0], worlds[0 + 1]);
      LaterItems(env, fuel - 1, body, left[..k], outs, worlds);
      hide RunPipeline, Drive, NextItem, ItemRun, ItemRuns;
      TakeItem(env, fuel, parts, body, left, done, f, worlds[0], outs[0], worlds[1]);
      ItemsFail(env, fuel, parts, body, left[1..], done + [outs[0]], f, k - 1, outs[1..], worlds[1..], e, v);
    }
  }

  /** It fails with the error of the first body run that fails, in the world that run left, or at once and without an
      effect if the selector leads to no array. */
  lemma ForeachFails(env: Env, fuel: nat, selector: string, body: Pipeline, f: Frame, w: World, items: seq<Json>,
                     k: nat, outs: seq<Json>, worlds: seq<World>, e: WebPipeError, v: World)
    requires fuel > 0
    ensures var at := GetPath(f.state, ParsePath(selector));
            (at.None? || !at.value.Array?) ==>
              Drive(env, fuel, PlanForeach(selector, body, f, w))
                == Ended(Raised(MiddlewareFailed("foreach: path '" + selector
                                                 + "' is not an array or does not exist"), w))
    ensures && GetPath(f.state, ParsePath(selector)) == Some(Array(items)) && k < |items|
            && ItemRuns(env, fuel - 1, body, items[..k], outs, worlds) && worlds[0] == w
            && RunPipeline(env, fuel - 1, body, items[k], None, worlds[k]) == Failed(e, v) ==>
              Drive(env, fuel, PlanForeach(selector, body, f, w)) == Ended(Raised(e, v))
  {
    hide ParsePath, NextItem, GetPath, SetPath, RunPipeline, Drive, PlanForeach, ItemRun;
    var parts := ParsePath(selector);
    ForeachTakes(env, fuel, selector, body, f, w);
    if GetPath(f.state, parts) == Some(Array(items)) && k < |items|
       && ItemRuns(env, fuel - 1, body, items[..k], outs, worlds) && worlds[0] == w
       && RunPipeline(env, fuel - 1, body, items[k], None, worlds[k]) == Failed(e, v) {
      ItemsFail(env, fuel, parts, body, items, [], f.(state := SetPath(f.state, parts, Null)), k, outs, worlds, e, v);
    }
  }

  /** A body that gives every item back leaves the state as it was. */
  lemma ForeachIdentity(env: Env, fuel: nat, selector: string, body: Pipeline, f: Frame, items: seq<Json>,
                        worlds: seq<World>)
    requires fuel > 0 && GetPath(f.state, ParsePath(selector)) == Some(Array(items))
    requires ItemRuns(env, fuel - 1, body, items, items, worlds)
    ensures Drive(env, fuel, PlanForeach(selector, body, f, worlds[0])) == Ended(Continue(f, worlds[|items|]))
  {
    hide RunPipeline, Drive, ItemRuns, PlanForeach;
    ForeachCompletes(env, fuel, selector, body, f, items, items, worlds);
    GetThenSet(f.state, ParsePath(selector));
  }
}
