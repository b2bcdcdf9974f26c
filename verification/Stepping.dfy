/** Where a resumed thread pauses again, and what an expanded value shows. */
module Stepping {
  import opened Base
  import opened JsonValues
  import opened Debugger

  // ----- stepping -----

  /** A request that lets the thread go on. */
  predicate Resumes(r: Request, id: int) {
    match r
    case Continue(i) => i == id
    case Next(i) => i == id
    case StepIn(i) => i == id
    case StepOutOf(i) => i == id
    case _ => false
  }

  /** Where a thread resumed so from `depth` calls deep stops, breakpoints aside: stepping over stops no deeper than it
      started, stepping out less deep, stepping in anywhere, going on nowhere. */
  predicate StopsAt(resume: Request, from: nat, depth: nat) {
    match resume
    case Next(_) => depth <= from
    case StepOutOf(_) => depth < from
    case StepIn(_) => true
    case _ => false
  }

  /** The request neither resumes the thread nor is a step of it that stops: other threads may do what they like. */
  predicate RunsOn(resume: Request, from: nat, id: int, r: Request) {
    && !Resumes(r, id)
    && (r.BeforeStep? && r.thread == id ==> !r.atBreakpoint && !StopsAt(resume, from, |r.stack|))
  }

  predicate Waits(s: Session, id: int, mode: Option<SteppingMode>) {
    id !in s.paused && ValueAt(s.stepping, id) == mode
  }

  function ModeOf(resume: Request, from: nat): Option<SteppingMode> {
    match resume
    case Next(_) => Some(StepOver(from))
    case StepOutOf(_) => Some(StepOut(from))
    case StepIn(_) => Some(StepInto)
    case _ => None
  }

  lemma PausesWhere(s: Session, id: int, resume: Request, from: nat, depth: nat, atBreakpoint: bool)
    requires Resumes(resume, id) && Waits(s, id, ModeOf(resume, from))
    ensures Pauses(s, id, depth, atBreakpoint) <==> atBreakpoint || StopsAt(resume, from, depth)
  {
  }

  lemma RunOnWaits(s: Session, id: int, resume: Request, from: nat, r: Request, order: KeyOrder)
    requires Resumes(resume, id) && Waits(s, id, ModeOf(resume, from)) && RunsOn(resume, from, id, r)
    ensures Waits(Apply(s, r, order), id, ModeOf(resume, from))
  {
    match r
    case BeforeStep(thread, state, stack, atBreakpoint) =>
      PausesWhere(s, id, resume, from, |stack|, atBreakpoint);
    case Variables(reference) =>
      var v := Target(s, reference);
      if v.Some? && Complex(v.value) {
        ShowAllCounts(s, ThreadOf(reference), PointerOf(s, reference), Kids(v.value, order));
      }
    case _ =>
  }

  lemma {:induction false} RunAllWaits(before: seq<Request>, id: int, resume: Request, from: nat, mid: seq<Request>,
                                       order: KeyOrder)
    requires Resumes(resume, id) && Waits(Run(before, order), id, ModeOf(resume, from))
    requires forall r :: r in mid ==> RunsOn(resume, from, id, r)
    ensures Waits(Run(before + mid, order), id, ModeOf(resume, from))
    decreases |mid|
  {
    hide Waits, RunsOn, Apply;
    if mid == [] {
      assert before + mid == before;
    } else {
      var front := mid[..|mid| - 1];
      RunAllWaits(before, id, resume, from, front, order);
      assert (before + mid)[..|before + mid| - 1] == before + front;
      RunOnWaits(Run(before + front, order), id, resume, from, mid[|mid| - 1], order);
    }
  }

  lemma ResumeWaits(s: Session, id: int, resume: Request, order: KeyOrder)
    requires Resumes(resume, id)
    ensures var from := if id in s.paused then |s.paused[id].stack| else 1;
            Waits(Apply(s, resume, order), id, ModeOf(resume, from))
  {
  }

  /** After a resume, in whatever session and whatever other threads do, the thread runs until its first step at a
      breakpoint or at a depth where that resume stops, counted from the depth at which it was paused; there it
      pauses. */
  lemma StopsFirstThere(before: seq<Request>, id: nat, resume: Request, mid: seq<Request>, order: KeyOrder, state: Json,
                        stack: seq<string>, atBreakpoint: bool)
    requires Resumes(resume, id)
    requires var s := Run(before, order);
             var from := if id in s.paused then |s.paused[id].stack| else 1;
             forall r :: r in mid ==> RunsOn(resume, from, id, r)
    ensures var s := Run(before, order);
            var from := if id in s.paused then |s.paused[id].stack| else 1;
            var t := Run(before + [resume] + mid, order);
            var u := Apply(t, BeforeStep(id, state, stack, atBreakpoint), order);
            && id !in t.paused
            && (id in u.paused <==> atBreakpoint || StopsAt(resume, from, |stack|))
            && (id in u.paused ==> u.paused[id] == Paused(state, stack, 1))
  {
    var s := Run(before, order);
    var from := if id in s.paused then |s.paused[id].stack| else 1;
    ResumeWaits(s, id, resume, order);
    assert (before + [resume])[..|before + [resume]| - 1] == before;
    RunAllWaits(before + [resume], id, resume, from, mid, order);
    var t := Run(before + [resume] + mid, order);
    hide Run;
    PausesWhere(t, id, resume, from, |stack|, atBreakpoint);
  }

  // ----- what is shown -----

  lemma {:induction false} KeysCovered(m: map<string, Json>, keys: seq<string>, k: string) returns (i: nat)
    requires |keys| == |m| && k in m && (forall i :: 0 <= i < |keys| ==> keys[i] in m)
    requires forall i, j :: 0 <= i < j < |keys| ==> keys[i] != keys[j]
    ensures i < |keys| && keys[i] == k
  {
    if forall j :: 0 <= j < |keys| ==> keys[j] != k {
      DistinctFill(keys, m.Keys - {k});
      assert false;
    }
    i :| 0 <= i < |keys| && keys[i] == k;
  }

  lemma {:induction false} DistinctFill(keys: seq<string>, s: set<string>)
    requires forall i :: 0 <= i < |keys| ==> keys[i] in s
    requires forall i, j :: 0 <= i < j < |keys| ==> keys[i] != keys[j]
    ensures |keys| <= |s|
    decreases |keys|
  {
    if keys != [] {
      var last := keys[|keys| - 1];
      DistinctFill(keys[..|keys| - 1], s - {last});
    }
  }

  /** Expanding an object shows each of its entries once, expanding an array each of its elements in order. */
  lemma KidsComplete(v: Json, order: KeyOrder)
    requires Enumerates(order)
    ensures var kids := Kids(v, order);
            && (v.Object? ==>
                  && |kids| == |v.fields|
                  && (forall k :: k in v.fields ==>
                        exists i :: 0 <= i < |kids| && kids[i].name == k && kids[i].value == v.fields[k])
                  && (forall i, j :: 0 <= i < j < |kids| ==> kids[i].name != kids[j].name))
            && (v.Array? ==>
                  && |kids| == |v.items|
                  && forall i :: 0 <= i < |kids| ==>
                       kids[i].value == v.items[i] && kids[i].name == "[" + Decimal(i) + "]")
            && (!Complex(v) ==> kids == [])
  {
    hide Decimal;
    if v.Object? {
      var keys := order(v.fields);
      forall k | k in v.fields
        ensures exists i :: 0 <= i < |Kids(v, order)| && Kids(v, order)[i].name == k
                            && Kids(v, order)[i].value == v.fields[k]
      {
        var i := KeysCovered(v.fields, keys, k);
        assert Kids(v, order)[i].name == k;
      }
    }
  }

  /** The scope of any frame of a paused thread leads to the thread's whole state, under a reference of that thread. */
  lemma FrameShowsState(s: Session, thread: nat, i: nat, order: KeyOrder)
    requires thread in s.paused && i < 10_000
    ensures var t := Apply(s, Scopes(thread * 10_000 + i), order);
            var root := thread * 100_000 + 1;
            && t == s.(pointers := s.pointers[root := ""])
            && Target(t, root) == Some(s.paused[thread].state) && PointerOf(t, root) == ""
  {
    FrameThread(thread, i);
    RefParts(thread, 1);
    hide RootRef, ThreadOf, OffsetOf;
  }

  lemma FrameThread(thread: nat, i: nat)
    requires i < 10_000
    ensures RootRef(thread * 10_000 + i) == thread * 100_000 + 1 == RefOf(thread, 1)
  {
    assert (thread * 10_000 + i) / 10_000 == thread;
  }

  /** A value without children is a single line that shows it; in a list, a container shows its kind and an array its
      length. */
  lemma LinesShow(s: Session, thread: int, parent: string, order: KeyOrder, text: string, items: seq<Json>,
                  fields: map<string, Json>)
    requires thread in s.paused
    ensures Expand(s, thread, parent, String(text), order) == (s, [Variable("value", "\"" + text + "\"", 0)])
    ensures Expand(s, thread, parent, Number(text), order) == (s, [Variable("value", text, 0)])
    ensures Expand(s, thread, parent, Bool(true), order) == (s, [Variable("value", "true", 0)])
    ensures Expand(s, thread, parent, Bool(false), order) == (s, [Variable("value", "false", 0)])
    ensures Expand(s, thread, parent, Null, order) == (s, [Variable("value", "null", 0)])
    ensures forall name, token ::
              && Debugger.Show(s, thread, parent, Kid(name, token, Array(items))).1.preview
                   == "[" + Decimal(|items|) + " items]"
              && Debugger.Show(s, thread, parent, Kid(name, token, Object(fields))).1.preview == "{...}"
  {
    hide ShowAll, Kids, Decimal;
  }
}
