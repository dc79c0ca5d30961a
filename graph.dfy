/** The engine as the source runs it: one mutable graph whose maps the operations update in place,
    each method proved to leave exactly the state the corresponding function of `Engine`,
    `Lifecycle`, `Batch` or `Sources` describes. */
module Graph {
  import opened Values
  import opened Engine
  import Cursor
  import Lifecycle
  import Batch
  import Sources

  class Graph {
    var wires: map<WireId, WireRec>
    var signals: map<SignalId, SignalRec>
    var stores: map<StoreId, StoreRec>
    var next: nat
    var calls: seq<TaskCall>

    /** The graph as a value. */
    function State(): State
      reads this
    {
      Engine.State(wires, signals, stores, next, calls)
    }

    /** Well formed, and every subscription linked both ways. */
    ghost predicate Valid()
      reads this
    {
      WF(State()) && Linked(State())
    }

    constructor ()
      ensures State() == Engine.State(map[], map[], map[], 0, []) && Valid()
    {
      wires := map[];
      signals := map[];
      stores := map[];
      next := 0;
      calls := [];
    }

    // ------------------------------------------------------------ signals

    /** `signal(val)`. */
    method NewSignal(v: Value) returns (s: SignalId)
      requires Valid()
      modifies this
      ensures (State(), s) == Sources.NewSignal(old(State()), v) && Valid()
    {
      Sources.NewSignalOk(State(), v);
      s := next;
      signals := signals[s := SignalRec(v, v, [])];
      next := next + 1;
    }

    /** `sig()`: the value, with no subscription. */
    method Peek(s: SignalId) returns (v: Value)
      requires s in signals
      ensures v == signals[s].value
    {
      v := signals[s].value;
    }

    /** `sig($)`: link wire and signal both ways, return the value. */
    method Link(w: WireId, s: SignalId) returns (v: Value)
      requires WF(State()) && w in wires && s in signals
      modifies this
      ensures (State(), v) == Engine.Link(old(State()), w, s)
    {
      wires := wires[w := wires[w].(sigRS := wires[w].sigRS + {s})];
      var sw := signals[s].wires;
      if w !in sw {
        sw := sw + [w];
      }
      signals := signals[s := signals[s].(wires := sw)];
      v := signals[s].value;
    }

    // ------------------------------------------------------------ the SubToken

    /** A cursor read through the SubToken (`getSubtoken`, cursor branch). */
    method TrackCursor(w: WireId, k: StoreId, p: Cursor.Path) returns (v: Value)
      requires w in wires && k in stores
      modifies this
      ensures (State(), v) == Engine.TrackCursor(old(State()), w, k, p)
    {
      var mw := stores[k].wires;
      if w !in mw {
        mw := mw + [w];
      }
      stores := stores[k := stores[k].(wires := mw)];
      var enc := Cursor.EncodeCursor(p);
      var rs := wires[w].storesRS;
      if k in rs {
        rs := rs[k := rs[k] + {enc}];
      } else {
        rs := rs[k := {enc}];
      }
      v := Lookup(stores[k].root, p);
      wires := wires[w := wires[w].(storesRS := rs, value := v)];
    }

    /** `$(x)` (`getSubtoken`). */
    method TokenRead(w: WireId, t: Target) returns (v: Value)
      requires WF(State()) && w in wires
      requires t.SignalRef? ==> t.sig in signals
      requires t.CursorRef? ==> t.store in stores
      modifies this
      ensures (State(), v) == Engine.TokenRead(old(State()), w, t)
    {
      match t
      case SignalRef(s) =>
        v := Link(w, s);
        wires := wires[w := wires[w].(value := v)];
      case CursorRef(k, p) =>
        v := TrackCursor(w, k, p);
    }

    // ------------------------------------------------------------ wires

    /** `wire(fn)`, or the factory of wire `upper.value`. */
    method NewWire(fn: Fn, upper: Option<WireId>) returns (w: WireId)
      requires WF(State()) && FnOk(signals.Keys, stores.Keys, fn)
      requires upper.Some? ==> upper.value in wires
      modifies this
      ensures (State(), w) == Engine.NewWire(old(State()), fn, upper)
      ensures WF(State()) && (old(Valid()) ==> Valid())
    {
      ghost var st0 := State();
      NewWireOk(st0, fn, upper);
      if Linked(st0) {
        NewWireKeepsLinked(st0, fn, upper);
      }
      w := next;
      wires := wires[w := Fresh(fn, upper)];
      next := next + 1;
      if upper.Some? {
        var p := upper.value;
        wires := wires[p := wires[p].(lower := wires[p].lower + {w})];
      }
    }

    /** `runWire(fn, $, factory)` for wire `w`. */
    method RunFn(w: WireId, fn: Fn) returns (v: Value)
      requires WF(State()) && w in wires && FnOk(signals.Keys, stores.Keys, fn)
      modifies this
      ensures (State(), v) == Engine.RunFn(old(State()), w, fn)
      decreases fn, 1
    {
      ghost var st0 := State();
      ghost var s1: Engine.State;
      match fn {
        case SignalFn(s) =>
          v := TokenRead(w, SignalRef(s));
          s1 := State();
          assert (s1, v) == Engine.TokenRead(st0, w, SignalRef(s));
        case CursorFn(k, p) =>
          v := TokenRead(w, CursorRef(k, p));
          s1 := State();
          assert (s1, v) == Engine.TokenRead(st0, w, CursorRef(k, p));
        case Script(_, res) =>
          var vals := RunSteps(w, fn);
          v := ResultOf(res, vals);
          s1 := State();
          assert (s1, vals) == Engine.RunSteps(st0, w, fn, 0, []);
      }
      wires := wires[w := wires[w].(value := v)];
      assert State() == SetValue(s1, w, v);
    }

    /** The body of a script: its steps in order. */
    method RunSteps(w: WireId, fn: Fn) returns (vals: seq<Value>)
      requires fn.Script?
      requires WF(State()) && w in wires && FnOk(signals.Keys, stores.Keys, fn)
      modifies this
      ensures (State(), vals) == Engine.RunSteps(old(State()), w, fn, 0, [])
      decreases fn, 0, |fn.steps|
    {
      ghost var st0 := State();
      vals := [];
      var i := 0;
      while i < |fn.steps|
        invariant i <= |fn.steps|
        invariant WF(State()) && w in wires && FnOk(signals.Keys, stores.Keys, fn)
        invariant Engine.RunSteps(State(), w, fn, i, vals) == Engine.RunSteps(st0, w, fn, 0, [])
        decreases |fn.steps| - i
      {
        vals := RunStep(w, fn, i, vals);
        i := i + 1;
      }
    }

    /** Step `i` of a script: a read through the token, a tracked signal read, or a child wire
        created through the factory and, when the script calls it, run. */
    method RunStep(w: WireId, fn: Fn, i: nat, vals: seq<Value>) returns (vals': seq<Value>)
      requires fn.Script? && i < |fn.steps|
      requires WF(State()) && w in wires && FnOk(signals.Keys, stores.Keys, fn)
      modifies this
      ensures WF(State()) && w in wires && FnOk(signals.Keys, stores.Keys, fn)
      ensures Engine.RunSteps(old(State()), w, fn, i, vals) == Engine.RunSteps(State(), w, fn, i + 1, vals')
      decreases fn, 0, 0
    {
      ghost var st := State();
      match fn.steps[i] {
        case Read(t) =>
          TokenReadOk(st, w, t);
          var v := TokenRead(w, t);
          vals' := vals + [v];
        case SignalRead(s) =>
          LinkOk(st, w, s);
          var v := Link(w, s);
          vals' := vals + [v];
        case Child(body, call) =>
          NewWireOk(st, body, Some(w));
          var c := NewWire(body, Some(w));
          if call {
            assert body < fn;
            var _ := RunFn(c, body);
          }
          vals' := vals;
      }
    }

    // ------------------------------------------------------------ pause, resume, reset

    /** `wirePause(w)`: the children first, then the skip bit on `w`. */
    method Pause(w: WireId)
      requires WiresOk(State()) && w in wires
      modifies this
      ensures State() == Lifecycle.Pause(old(State()), w)
      ensures old(Valid()) ==> Valid()
      decreases next - w, 2
    {
      ghost var st0 := State();
      Lifecycle.PauseOk(st0, w);
      PauseLower(w);
      Lifecycle.PauseFinish(st0, w);
      MarkSkip(w);
    }

    /** `wire.state |= S_SKIP_RUN_QUEUE` on its own. */
    method MarkSkip(w: WireId)
      requires w in wires
      modifies this
      ensures State() == Lifecycle.SetBits(old(State()), {w}, SKIP_RUN_QUEUE)
    {
      ghost var cur := State();
      wires := wires[w := wires[w].(state := wires[w].state | SKIP_RUN_QUEUE)];
      assert State().wires == Lifecycle.SetBits(cur, {w}, SKIP_RUN_QUEUE).wires;
    }

    /** One child of the `lower` loop, after the children in `done`. */
    method PauseChild(ghost st0: State, w: WireId, ghost done: set<WireId>, c: WireId)
      requires WiresOk(st0) && w in st0.wires && done <= st0.wires[w].lower && c in st0.wires[w].lower
      requires State() == Lifecycle.SetBits(st0, Lifecycle.Forest(st0, done), SKIP_RUN_QUEUE)
      modifies this
      ensures State() == Lifecycle.SetBits(st0, Lifecycle.Forest(st0, done + {c}), SKIP_RUN_QUEUE)
      decreases next - w, 0
    {
      assert WireOk(st0, w);
      Lifecycle.PauseStep(st0, done, c);
      Pause(c);
    }

    /** `wire.lower.forEach(wirePause)`. */
    method PauseLower(w: WireId)
      requires WiresOk(State()) && w in wires
      modifies this
      ensures State() == Lifecycle.SetBits(old(State()), Lifecycle.Forest(old(State()), old(wires[w].lower)), SKIP_RUN_QUEUE)
      decreases next - w, 1
    {
      ghost var st0 := State();
      assert WireOk(st0, w);
      var todo := wires[w].lower;
      ghost var low := todo;
      ghost var done: set<WireId> := {};
      Lifecycle.ForestEmpty(st0);
      Lifecycle.SetBitsNothing(st0, SKIP_RUN_QUEUE);
      while todo != {}
        invariant todo <= low && done == low - todo
        invariant State() == Lifecycle.SetBits(st0, Lifecycle.Forest(st0, done), SKIP_RUN_QUEUE)
        decreases |todo|
      {
        var c :| c in todo;
        PauseChild(st0, w, done, c);
        todo := todo - {c};
        done := done + {c};
      }
      assert done == low;
    }

    /** `wireResume(w)`: the children first (their answers are dropped), then the skip bit off `w`;
        the answer is whether `w` missed a run while paused. */
    method Resume(w: WireId) returns (missed: bool)
      requires WiresOk(State()) && w in wires
      modifies this
      ensures (State(), missed) == Lifecycle.Resume(old(State()), w)
      ensures old(Valid()) ==> Valid()
      decreases next - w, 2
    {
      ghost var st0 := State();
      Lifecycle.ResumeOk(st0, w);
      ResumeLower(w);
      Lifecycle.ResumeFinish(st0, w);
      ClearSkip(w);
      missed := wires[w].state & NEEDS_RUN != 0;
    }

    /** `wire.state &= ~S_SKIP_RUN_QUEUE` on its own. */
    method ClearSkip(w: WireId)
      requires w in wires
      modifies this
      ensures State() == Lifecycle.ClearBits(old(State()), {w}, SKIP_RUN_QUEUE)
    {
      ghost var cur := State();
      wires := wires[w := wires[w].(state := wires[w].state & !SKIP_RUN_QUEUE)];
      assert State().wires == Lifecycle.ClearBits(cur, {w}, SKIP_RUN_QUEUE).wires;
    }

    /** One child of the `lower` loop, after the children in `done`. */
    method ResumeChild(ghost st0: State, w: WireId, ghost done: set<WireId>, c: WireId)
      requires WiresOk(st0) && w in st0.wires && done <= st0.wires[w].lower && c in st0.wires[w].lower
      requires State() == Lifecycle.ClearBits(st0, Lifecycle.Forest(st0, done), SKIP_RUN_QUEUE)
      modifies this
      ensures State() == Lifecycle.ClearBits(st0, Lifecycle.Forest(st0, done + {c}), SKIP_RUN_QUEUE)
      decreases next - w, 0
    {
      assert WireOk(st0, w);
      Lifecycle.ResumeStep(st0, done, c);
      var _ := Resume(c);
    }

    /** `wire.lower.forEach(wireResume)`. */
    method ResumeLower(w: WireId)
      requires WiresOk(State()) && w in wires
      modifies this
      ensures State() == Lifecycle.ClearBits(old(State()), Lifecycle.Forest(old(State()), old(wires[w].lower)), SKIP_RUN_QUEUE)
      decreases next - w, 1
    {
      ghost var st0 := State();
      assert WireOk(st0, w);
      var todo := wires[w].lower;
      ghost var low := todo;
      ghost var done: set<WireId> := {};
      Lifecycle.ForestEmpty(st0);
      Lifecycle.ClearBitsNothing(st0, SKIP_RUN_QUEUE);
      while todo != {}
        invariant todo <= low && done == low - todo
        invariant State() == Lifecycle.ClearBits(st0, Lifecycle.Forest(st0, done), SKIP_RUN_QUEUE)
        decreases |todo|
      {
        var c :| c in todo;
        ResumeChild(st0, w, done, c);
        todo := todo - {c};
        done := done + {c};
      }
      assert done == low;
    }

    /** `wireReset(w)`: the children first, then `w` leaves every signal it read, then
        `_initWire`. */
    method Reset(w: WireId)
      requires WiresOk(State()) && w in wires
      modifies this
      ensures State() == Lifecycle.Reset(old(State()), w)
      ensures old(Valid()) ==> Valid()
      decreases next - w, 2
    {
      ghost var st0 := State();
      Lifecycle.ResetOk(st0, w);
      ResetLower(w);
      Lifecycle.ResetFinish(st0, w);
      ghost var st1 := State();
      assert WireOk(st0, w);
      Unlink(w);
      Lifecycle.ResetOne(st1, w);
      wires := wires[w := wires[w].(state := NEEDS_RUN, lower := {}, sigRS := {})];
    }

    /** One child of the `lower` loop, after the children in `done`. */
    method ResetChild(ghost st0: State, w: WireId, ghost done: set<WireId>, c: WireId)
      requires WiresOk(st0) && w in st0.wires && done <= st0.wires[w].lower && c in st0.wires[w].lower
      requires State() == Lifecycle.ResetSet(st0, Lifecycle.Forest(st0, done))
      modifies this
      ensures State() == Lifecycle.ResetSet(st0, Lifecycle.Forest(st0, done + {c}))
      decreases next - w, 0
    {
      assert WireOk(st0, w);
      Lifecycle.ResetStep(st0, done, c);
      Reset(c);
    }

    /** `wire.lower.forEach(wireReset)`. */
    method ResetLower(w: WireId)
      requires WiresOk(State()) && w in wires
      modifies this
      ensures State() == Lifecycle.ResetSet(old(State()), Lifecycle.Forest(old(State()), old(wires[w].lower)))
      decreases next - w, 1
    {
      ghost var st0 := State();
      assert WireOk(st0, w);
      var todo := wires[w].lower;
      ghost var low := todo;
      ghost var done: set<WireId> := {};
      Lifecycle.ForestEmpty(st0);
      Lifecycle.ResetSetNothing(st0);
      while todo != {}
        invariant todo <= low && done == low - todo
        invariant State() == Lifecycle.ResetSet(st0, Lifecycle.Forest(st0, done))
        decreases |todo|
      {
        var c :| c in todo;
        ResetChild(st0, w, done, c);
        todo := todo - {c};
        done := done + {c};
      }
      assert done == low;
    }

    /** `wire.sigRS.forEach(signal => signal.wires.delete(wire))`. */
    method Unlink(w: WireId)
      requires w in wires && wires[w].sigRS <= signals.Keys
      modifies this
      ensures State() == Lifecycle.Unlink(old(State()), w, old(wires[w].sigRS))
    {
      ghost var st0 := State();
      var todo := wires[w].sigRS;
      ghost var read := todo;
      ghost var done: set<SignalId> := {};
      Lifecycle.UnlinkNothing(st0, w);
      while todo != {}
        invariant todo <= read && done == read - todo && read <= st0.signals.Keys
        invariant State() == Lifecycle.Unlink(st0, w, done)
        decreases |todo|
      {
        var s :| s in todo;
        Lifecycle.UnlinkStep(st0, w, done, s);
        signals := signals[s := signals[s].(wires := Lifecycle.Unsubscribe(signals[s].wires, {w}))];
        todo := todo - {s};
        done := done + {s};
      }
      assert done == read;
    }
  
    // ------------------------------------------------------------ _runWires

    /** `_runWires(batch)`: the first `forEach` filters a copy of the batch and marks the paused
        wires, the second runs what is left. */
    method RunWires(batch: seq<WireId>)
      requires WF(State()) && Distinct(batch) && forall x :: x in batch ==> x in wires
      modifies this
      ensures State() == Batch.RunWires(old(State()), batch)
    {
      ghost var st0 := State();
      var toRun := Filter(batch);
      Lifecycle.SetBitsOk(st0, Batch.PausedIn(st0, batch), NEEDS_RUN);
      SameGraphOk(st0, State());
      RunAll(toRun);
    }

    /** The first `forEach` of `_runWires`. */
    method Filter(batch: seq<WireId>) returns (toRun: seq<WireId>)
      requires WiresOk(State()) && Distinct(batch) && forall x :: x in batch ==> x in wires
      modifies this
      ensures toRun == Batch.Kept(old(State()), batch)
      ensures State() == Lifecycle.SetBits(old(State()), Batch.PausedIn(old(State()), batch), NEEDS_RUN)
    {
      ghost var st0 := State();
      toRun := batch;
      Batch.MarkStart(st0, batch);
      var i := 0;
      while i < |batch|
        invariant i <= |batch|
        invariant Batch.Survivors(st0, batch, i, toRun) == Batch.Survivors(st0, batch, 0, batch)
        invariant State() == Lifecycle.SetBits(st0, Batch.PausedIn(st0, batch[..i]), NEEDS_RUN)
        decreases |batch| - i
      {
        toRun := Visit(st0, batch, i, toRun);
        i := i + 1;
      }
      assert batch[..i] == batch;
    }

    /** One wire of the first `forEach`: a paused wire leaves `toRun` and is marked NEEDS_RUN; a
        wire with an ancestor still in `toRun` leaves it too. */
    method Visit(ghost st0: State, batch: seq<WireId>, i: nat, toRun: seq<WireId>) returns (toRun': seq<WireId>)
      requires WiresOk(st0) && i < |batch| && Distinct(batch) && forall x :: x in batch ==> x in st0.wires
      requires State() == Lifecycle.SetBits(st0, Batch.PausedIn(st0, batch[..i]), NEEDS_RUN)
      modifies this
      ensures Batch.Survivors(st0, batch, i + 1, toRun') == Batch.Survivors(st0, batch, i, toRun)
      ensures State() == Lifecycle.SetBits(st0, Batch.PausedIn(st0, batch[..i + 1]), NEEDS_RUN)
    {
      var w := batch[i];
      Batch.MarkStep(st0, batch, i);
      ghost var cur := State();
      toRun' := toRun;
      if wires[w].state & SKIP_RUN_QUEUE != 0 {
        toRun' := Batch.Delete(toRun', w);
        wires := wires[w := wires[w].(state := wires[w].state | NEEDS_RUN)];
        assert State().wires == Lifecycle.SetBits(cur, {w}, NEEDS_RUN).wires;
      }
      Lifecycle.SetBitsOk(st0, Batch.PausedIn(st0, batch[..i + 1]), NEEDS_RUN);
      SameGraphWiresOk(st0, State());
      Batch.AncestorInSame(st0, State(), w, toRun');
      var found := HasAncestorIn(w, toRun');
      if found {
        toRun' := Batch.Delete(toRun', w);
      }
    }

    /** `curr = wire; while ((curr = curr.upper)) if (toRun.has(curr)) ...`. */
    method HasAncestorIn(w: WireId, t: seq<WireId>) returns (found: bool)
      requires WiresOk(State()) && w in wires
      ensures found == Batch.AncestorIn(State(), w, t)
    {
      assert WireOk(State(), w);
      var curr := wires[w].upper;
      while curr.Some?
        invariant curr.Some? ==> curr.value in wires
        invariant Batch.AncestorIn(State(), w, t) == (curr.Some? && (curr.value in t || Batch.AncestorIn(State(), curr.value, t)))
        decreases if curr.Some? then curr.value + 1 else 0
      {
        if curr.value in t {
          return true;
        }
        assert WireOk(State(), curr.value);
        curr := wires[curr.value].upper;
      }
      found := false;
    }

    /** The second `forEach` of `_runWires`. */
    method RunAll(ks: seq<WireId>)
      requires WF(State()) && forall x :: x in ks ==> x in wires
      modifies this
      ensures State() == Batch.ExecAll(old(State()), ks, 0)
    {
      ghost var st0 := State();
      var j := 0;
      while j < |ks|
        invariant j <= |ks|
        invariant WF(State()) && forall x :: x in ks ==> x in wires
        invariant Batch.ExecAll(State(), ks, j) == Batch.ExecAll(st0, ks, 0)
        decreases |ks| - j
      {
        Batch.ExecAllStep(State(), ks, j);
        Exec(ks[j]);
        j := j + 1;
      }
    }

    /** One wire of the second `forEach`: run it, count the run, and when the result is not the
        previous value store it and call every task with it. */
    method Exec(w: WireId)
      requires WF(State()) && w in wires
      modifies this
      ensures State() == Batch.ExecOne(old(State()), w).0
    {
      ghost var st0 := State();
      Batch.ExecOneUnfold(st0, w);
      var prev := wires[w].value;
      var fn := wires[w].fn;
      assert FnOk(signals.Keys, stores.Keys, fn);
      var val := RunFn(w, fn);
      ghost var s1 := State();
      assert (s1, val) == Engine.RunFn(st0, w, fn);
      CountRun(w);
      if val != prev {
        Publish(w, val);
      }
    }

    /** `wire.run = wire.run + 1`. */
    method CountRun(w: WireId)
      requires w in wires
      modifies this
      ensures State() == Batch.Count(old(State()), w)
    {
      wires := wires[w := wires[w].(run := wires[w].run + 1)];
    }

    /** `wire.value = val; for (const task of wire.tasks) task(val);` */
    method Publish(w: WireId, val: Value)
      requires w in wires
      modifies this
      ensures State() == Batch.Publish(old(State()), w, val)
    {
      ghost var st0 := State();
      wires := wires[w := wires[w].(value := val)];
      var tasks := wires[w].tasks;
      ghost var st1 := State();
      var k := 0;
      while k < |tasks|
        invariant k <= |tasks|
        invariant State() == st1.(calls := st1.calls + Batch.TaskCalls(w, tasks[..k], val))
        decreases |tasks| - k
      {
        Batch.TaskCallsSnoc(w, tasks, k, val);
        calls := calls + [TaskCall(w, tasks[k], val)];
        k := k + 1;
      }
      assert tasks[..k] == tasks;
    }
  
    // ------------------------------------------------------------ writes, stores, tasks

    /** `sig(value)`. */
    method Write(s: SignalId, v: Value) returns (r: Value)
      requires Valid() && s in signals
      modifies this
      ensures (State(), r) == Sources.WriteSignal(old(State()), s, v) && Valid()
      ensures signals.Keys == old(signals.Keys) && r == old(signals[s].init)
      ensures forall q :: q in signals ==> signals[q].value == if q == s then v else old(signals[q].value)
    {
      ghost var st0 := State();
      Sources.WriteSignalOk(st0, s, v);
      r := signals[s].init;
      var subscribers := signals[s].wires;
      AssignValue(s, v);
      RunWires(subscribers);
      assert State() == Sources.WriteSignal(st0, s, v).0;
      Sources.WriteSignalEffect(st0, s, v);
    }

    /** The assignment `sig.val = val` on its own. */
    method AssignValue(s: SignalId, v: Value)
      requires WF(State()) && s in signals
      modifies this
      ensures State() == PutSignal(old(State()), s, old(signals[s]).(value := v))
      ensures WF(State())
    {
      PutSignalWF(State(), s, signals[s].(value := v));
      signals := signals[s := signals[s].(value := v)];
    }

    /** `w()`: run the wire's body through its own token. */
    method Call(w: WireId) returns (v: Value)
      requires Valid() && w in wires
      modifies this
      ensures (State(), v) == Engine.RunFn(old(State()), w, old(wires[w].fn)) && Valid()
    {
      var fn := wires[w].fn;
      assert FnOk(signals.Keys, stores.Keys, fn);
      RunFnKeepsLinked(State(), w, fn);
      v := RunFn(w, fn);
    }

    /** `store(obj)`. */
    method NewStore(root: Value) returns (k: StoreId)
      requires Valid()
      modifies this
      ensures (State(), k) == Sources.NewStore(old(State()), root) && Valid()
    {
      Sources.NewStoreOk(State(), root);
      k := next;
      stores := stores[k := StoreRec(root, [])];
      next := next + 1;
    }

    /** The store's change callback, after the observed object has become `root`. */
    method StoreChanged(k: StoreId, root: Value, changes: seq<Cursor.Change>)
      requires Valid() && k in stores
      modifies this
      ensures State() == Sources.StoreChanged(old(State()), k, root, changes) && Valid()
    {
      ghost var st0 := State();
      Sources.StoreChangedOk(st0, k, root, changes);
      AssignRoot(k, root);
      assert Distinct(stores[k].wires) && forall x :: x in stores[k].wires ==> x in wires;
      var toRun := Collect(k, changes);
      RunWires(toRun);
      assert State() == Sources.StoreChanged(st0, k, root, changes);
    }

    /** The store's object graph after the observed changes. */
    method AssignRoot(k: StoreId, root: Value)
      requires WF(State()) && k in stores
      modifies this
      ensures State() == PutStore(old(State()), k, old(stores[k]).(root := root))
      ensures WF(State())
    {
      PutStoreWF(State(), k, stores[k].(root := root));
      stores := stores[k := stores[k].(root := root)];
    }

    /** The loop over `manager.wires` in the change callback. */
    method Collect(k: StoreId, changes: seq<Cursor.Change>) returns (toRun: seq<WireId>)
      requires k in stores && Distinct(stores[k].wires)
      requires forall x :: x in stores[k].wires ==> x in wires
      ensures toRun == Sources.Notified(stores[k].wires, State(), k, changes)
    {
      ghost var st := State();
      var xs := stores[k].wires;
      toRun := [];
      var i := 0;
      while i < |xs|
        invariant i <= |xs|
        invariant toRun == Sources.Notified(xs[..i], st, k, changes)
        decreases |xs| - i
      {
        var x := xs[i];
        assert x !in toRun by {
          assert x !in xs[..i];
        }
        var toRun' := CollectWire(k, x, changes, toRun);
        Sources.NotifiedSnoc(xs, st, k, changes, i);
        toRun := toRun';
        i := i + 1;
      }
      assert xs[..|xs|] == xs;
    }

    /** One subscriber of the change callback: `toRun.add(wire)` for each of its cursors for this
        store that some change hits. */
    method CollectWire(k: StoreId, x: WireId, changes: seq<Cursor.Change>, toRun: seq<WireId>)
      returns (toRun': seq<WireId>)
      requires x in wires && x !in toRun
      ensures toRun' == toRun + (if Sources.Concerned(State(), k, x, changes) then [x] else [])
    {
      toRun' := toRun;
      if k in wires[x].storesRS {
        var todo := wires[x].storesRS[k];
        ghost var cursors := todo;
        ghost var done: set<string> := {};
        while todo != {}
          invariant todo <= cursors && done == cursors - todo
          invariant toRun' == toRun + (if Sources.AnyMatched(done, changes) then [x] else [])
          decreases |todo|
        {
          var e :| e in todo;
          Sources.MatchedStep(done, e, changes);
          var m := AnyHits(e, changes);
          if m {
            toRun' := Add(toRun', x);
          }
          todo := todo - {e};
          done := done + {e};
        }
        assert done == cursors;
      }
    }

    /** `changes.some(el => encodeCursor(el.path.slice(0, cursor.length)) == cursorStr)`. */
    method AnyHits(e: string, changes: seq<Cursor.Change>) returns (m: bool)
      ensures m == Cursor.Matches(e, changes)
    {
      var n := Cursor.DecodedLength(e);
      var j := 0;
      while j < |changes|
        invariant j <= |changes|
        invariant forall i :: 0 <= i < j ==> !Cursor.Hits(e, changes[i].path)
        decreases |changes| - j
      {
        if Cursor.EncodeCursor(Cursor.Take(changes[j].path, n)) == e {
          return true;
        }
        j := j + 1;
      }
      m := false;
    }

    /** `reify(cursor)`: no subscription. */
    method Reify(k: StoreId, p: Cursor.Path) returns (v: Value)
      requires k in stores
      ensures v == Sources.Reify(State(), k, p)
    {
      v := Lookup(stores[k].root, p);
    }

    /** `wire.tasks.add(task)`. */
    method AddTask(w: WireId, t: TaskId)
      requires Valid() && w in wires
      modifies this
      ensures State() == Sources.AddTask(old(State()), w, t) && Valid()
    {
      Sources.AddTaskOk(State(), w, t);
      wires := wires[w := wires[w].(tasks := Add(wires[w].tasks, t))];
    }
  }
}
