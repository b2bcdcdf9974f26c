/** The debug server: shared maps that each request handler updates in place. */
module DapServers {
  import opened Base
  import opened JsonValues
  import opened JsonPointers
  import opened Debugger

  method Pick<T>(s: set<T>) returns (x: T)
    requires s != {}
    ensures x in s
  {
    x :| x in s;
  }

  class DapServer {
    const keyOrder: KeyOrder
    var paused: map<int, Paused>
    var stepping: map<int, SteppingMode>
    var variableCache: map<int, Json>
    var variablePointers: map<int, string>
    /** Threads the client has been told about. */
    var announced: set<int>
    var shutdownNotified: bool

    ghost function View(): Session
      reads this
    {
      Session(paused, stepping, variableCache, variablePointers)
    }

    constructor (keyOrder: KeyOrder)
      ensures View() == START && this.keyOrder == keyOrder && announced == {} && !shutdownNotified
    {
      this.keyOrder := keyOrder;
      paused, stepping, variableCache, variablePointers := map[], map[], map[], map[];
      announced, shutdownNotified := {}, false;
    }

    /** Before each step: pause at a breakpoint or when the stepping mode says so. */
    method BeforeStep(thread: nat, state: Json, stack: seq<string>, atBreakpoint: bool) returns (stops: bool)
      modifies this`paused, this`stepping, this`announced
      ensures announced == if stops then old(announced) + {thread as int} else old(announced)
      ensures stops == Pauses(old(View()), thread, |stack|, atBreakpoint)
      ensures View() == Apply(old(View()), Request.BeforeStep(thread, state, stack, atBreakpoint), keyOrder)
    {
      var stepNow := false;
      if thread in stepping {
        match stepping[thread] {
          case StepInto => stepNow := true;
          case StepOver(target) => stepNow := |stack| <= target;
          case StepOut(target) => stepNow := |stack| < target;
        }
      }
      stops := atBreakpoint || stepNow;
      if stops {
        announced := announced + {thread as int};
        stepping := stepping - {thread};
        paused := paused[thread as int := Paused(state, stack, 1)];
      }
    }

    /** Every frame of a thread shows the same scope: the thread's paused state. */
    method HandleScopes(frame: int) returns (reference: int)
      modifies this`variablePointers
      ensures reference == RootRef(frame)
      ensures View() == Apply(old(View()), Scopes(frame), keyOrder)
    {
      var thread := Quotient(frame, FRAMES);
      reference := thread * STRIDE + 1;
      variablePointers := variablePointers[reference := ""];
    }

    method HandleVariables(reference: int) returns (lines: seq<Variable>)
      modifies this`paused, this`variableCache, this`variablePointers
      ensures View() == Apply(old(View()), Variables(reference), keyOrder)
      ensures lines == if Target(old(View()), reference).None? then []
                       else Expand(old(View()), ThreadOf(reference), PointerOf(old(View()), reference),
                                   Target(old(View()), reference).value, keyOrder).1
    {
      lines := [];
      var thread := Quotient(reference, STRIDE);
      var parent := if reference in variablePointers then variablePointers[reference] else "";
      if thread in paused {
        if reference - STRIDE * thread == 1 {
          lines := JsonToVariables(paused[thread].state, thread, parent);
        } else if reference in variableCache {
          lines := JsonToVariables(variableCache[reference], thread, parent);
        }
      }
    }

    /** One line a child. */
    method JsonToVariables(value: Json, thread: int, parent: string) returns (lines: seq<Variable>)
      requires thread in paused
      modifies this`paused, this`variableCache, this`variablePointers
      ensures thread in paused
      ensures (View(), lines) == Expand(old(View()), thread, parent, value, keyOrder)
    {
      if !value.Object? && !value.Array? {
        return [Variable("value", Preview(value), 0)];
      }
      hide Kids, Show;
      var kids := Kids(value, keyOrder);
      lines := [];
      for i := 0 to |kids|
        invariant thread in paused
        invariant (View(), lines) == ShowAll(old(View()), thread, parent, kids[..i])
      {
        assert kids[..i + 1][..i] == kids[..i];
        var line := ShowChild(kids[i], thread, parent);
        lines := lines + [line];
      }
      assert kids[..|kids|] == kids;
    }

    /** A complex child is cached under the thread's next reference. */
    method ShowChild(kid: Kid, thread: int, parent: string) returns (line: Variable)
      requires thread in paused
      modifies this`paused, this`variableCache, this`variablePointers
      ensures thread in paused
      ensures (View(), line) == Show(old(View()), thread, parent, kid)
    {
      var reference := 0;
      if kid.value.Object? || kid.value.Array? {
        var p := paused[thread];
        paused := paused[thread := p.(index := p.index + 1)];
        reference := thread * STRIDE + paused[thread].index;
        variableCache := variableCache[reference := kid.value];
        variablePointers := variablePointers[reference := parent + "/" + kid.token];
      }
      line := Variable(kid.name, Preview(kid.value), reference);
    }

    method ClearThreadVariables(thread: int)
      modifies this`variableCache, this`variablePointers
      ensures View() == Cleared(old(View()), thread)
    {
      var start := thread * STRIDE;
      var end := start + STRIDE - 1;
      variableCache := map r | r in variableCache && (r < start || r > end) :: variableCache[r];
      variablePointers := map r | r in variablePointers && (r < start || r > end) :: variablePointers[r];
    }

    /** Take the thread out of the paused ones and hand back its state, if it was paused. */
    method Release(thread: int) returns (state: Option<Json>)
      modifies this`paused
      ensures paused == old(paused) - {thread}
      ensures state == if thread in old(paused) then Some(old(paused)[thread].state) else None
    {
      if thread in paused {
        state := Some(paused[thread].state);
        paused := paused - {thread};
      } else {
        state := None;
      }
    }

    method HandleContinue(thread: int) returns (state: Option<Json>)
      modifies this`paused, this`stepping, this`variableCache, this`variablePointers
      ensures View() == Apply(old(View()), Continue(thread), keyOrder)
      ensures state == if thread in old(paused) then Some(old(paused)[thread].state) else None
    {
      ClearThreadVariables(thread);
      stepping := stepping - {thread};
      state := Release(thread);
    }

    method HandleNext(thread: int) returns (state: Option<Json>)
      modifies this`paused, this`stepping, this`variableCache, this`variablePointers
      ensures View() == Apply(old(View()), Next(thread), keyOrder)
      ensures state == if thread in old(paused) then Some(old(paused)[thread].state) else None
    {
      ClearThreadVariables(thread);
      var depth := if thread in paused then |paused[thread].stack| else 1;
      stepping := stepping[thread := StepOver(depth)];
      state := Release(thread);
    }

    method HandleStepIn(thread: int) returns (state: Option<Json>)
      modifies this`paused, this`stepping, this`variableCache, this`variablePointers
      ensures View() == Apply(old(View()), StepIn(thread), keyOrder)
      ensures state == if thread in old(paused) then Some(old(paused)[thread].state) else None
    {
      ClearThreadVariables(thread);
      stepping := stepping[thread := StepInto];
      state := Release(thread);
    }

    method HandleStepOut(thread: int) returns (state: Option<Json>)
      modifies this`paused, this`stepping, this`variableCache, this`variablePointers
      ensures View() == Apply(old(View()), StepOutOf(thread), keyOrder)
      ensures state == if thread in old(paused) then Some(old(paused)[thread].state) else None
    {
      ClearThreadVariables(thread);
      var depth := if thread in paused then |paused[thread].stack| else 1;
      stepping := stepping[thread := StepOut(depth)];
      state := Release(thread);
    }

    /** Let every paused thread go on and end the session; the variables stay behind. */
    method HandleDisconnect() returns (released: map<int, Json>)
      modifies this`paused, this`announced, this`shutdownNotified
      ensures announced == {} && shutdownNotified
      ensures View() == Apply(old(View()), Disconnect, keyOrder)
      ensures released == map t | t in old(paused) :: old(paused)[t].state
    {
      released := map[];
      var waiting := paused.Keys;
      while waiting != {}
        invariant paused.Keys == waiting && waiting <= old(paused).Keys
        invariant forall t :: t in waiting ==> paused[t] == old(paused)[t]
        invariant released == map t | t in old(paused) && t !in waiting :: old(paused)[t].state
        decreases waiting
      {
        var t := Pick(waiting);
        waiting := waiting - {t};
        var state := Release(t);
        released := released[t := state.value];
      }
      announced, shutdownNotified := {}, true;
    }
  }
}
