/** The two sources of change: `signal` (create, read, write) and `store` (create, the deep
    observer's change callback, and `reify`). */
module Sources {
  import opened Values
  import opened Engine
  import Cursor
  import Batch

  // ---------------------------------------------------------------- signals

  /** `signal(val)`: a fresh signal holding `val`, with no subscribers. */
  function NewSignal(st: State, v: Value): (State, SignalId)
  {
    (st.(signals := st.signals[st.next := SignalRec(v, v, [])], next := st.next + 1), st.next)
  }

  /** `sig(value)`: store the value, then hand the subscribers, as they are at this moment, to the
      batch runner. The call returns the value the signal was created with. */
  function WriteSignal(st: State, s: SignalId, v: Value): (State, Value)
    requires WF(st) && s in st.signals
  {
    var st1 := PutSignal(st, s, st.signals[s].(value := v));
    PutSignalWF(st, s, st.signals[s].(value := v));
    (Batch.RunWires(st1, st1.signals[s].wires), st.signals[s].init)
  }

  // ---------------------------------------------------------------- stores

  /** `store(obj)`: a fresh store over `root`, with no subscribers. */
  function NewStore(st: State, root: Value): (State, StoreId)
  {
    (st.(stores := st.stores[st.next := StoreRec(root, [])], next := st.next + 1), st.next)
  }

  /** Wire `x` recorded, for store `k`, an encoded cursor that one of the change records hits. */
  predicate Concerned(st: State, k: StoreId, x: WireId, changes: seq<Cursor.Change>)
  {
    x in st.wires && k in st.wires[x].storesRS
    && AnyMatched(st.wires[x].storesRS[k], changes)
  }

  /** Some cursor of `cursors` is hit by one of the changes. */
  predicate AnyMatched(cursors: set<string>, changes: seq<Cursor.Change>)
  {
    exists e :: e in cursors && Cursor.Matches(e, changes)
  }

  /** The loop over `manager.wires` that fills `toRun`: the subscribers the changes concern, in
      subscription order. */
  function Notified(xs: seq<WireId>, st: State, k: StoreId, changes: seq<Cursor.Change>): (r: seq<WireId>)
    ensures forall x :: x in r <==> x in xs && Concerned(st, k, x, changes)
    ensures Distinct(xs) ==> Distinct(r)
    decreases |xs|
  {
    if xs == [] then []
    else (if Concerned(st, k, xs[0], changes) then [xs[0]] else []) + Notified(xs[1..], st, k, changes)
  }

  /** The observer callback for store `k`, after the object graph has become `root` through the
      changes `changes`: the concerned subscribers run as one batch. */
  function StoreChanged(st: State, k: StoreId, root: Value, changes: seq<Cursor.Change>): State
    requires WF(st) && k in st.stores
  {
    var st1 := PutStore(st, k, st.stores[k].(root := root));
    PutStoreWF(st, k, st.stores[k].(root := root));
    Batch.RunWires(st1, Notified(st1.stores[k].wires, st1, k, changes))
  }

  /** `reify(cursor)`: the value at the cursor's path, read without subscribing anything. */
  function Reify(st: State, k: StoreId, p: Cursor.Path): Value
    requires k in st.stores
  {
    Lookup(st.stores[k].root, p)
  }

  /** `wire.tasks.add(task)`: register a post-run task. */
  function AddTask(st: State, w: WireId, t: TaskId): State
    requires w in st.wires
  {
    PutWire(st, w, st.wires[w].(tasks := Add(st.wires[w].tasks, t)))
  }

  // ---------------------------------------------------------------- facts

  /** A new signal gets the next fresh id, holds `v` as both its value and its initial value, has
      no subscribers, and leaves everything else as it was. */
  lemma NewSignalEffect(st: State, v: Value)
    requires WF(st)
    ensures var r := NewSignal(st, v).0;
      var s := NewSignal(st, v).1;
      s !in st.signals && r.signals.Keys == st.signals.Keys + {s}
      && r.signals[s] == SignalRec(v, v, [])
      && (forall q :: q in st.signals ==> r.signals[q] == st.signals[q])
      && r.wires == st.wires && r.stores == st.stores && r.calls == st.calls
  {
    assert st.next !in st.signals;
  }

  /** Creating a signal keeps the state well formed and linked. */
  lemma NewSignalOk(st: State, v: Value)
    requires WF(st)
    ensures WF(NewSignal(st, v).0)
    ensures Linked(st) ==> Linked(NewSignal(st, v).0)
  {
    var r := NewSignal(st, v).0;
    forall x | x in r.wires ensures x < r.next && WireOk(r, x) {
      assert WireOk(st, x);
    }
    forall x | x in r.wires ensures FnOk(r.signals.Keys, r.stores.Keys, r.wires[x].fn) {
      FnOkMono(st.signals.Keys, st.stores.Keys, r.signals.Keys, r.stores.Keys, r.wires[x].fn);
    }
    assert WiresOk(r);
    assert SignalsOk(r);
    assert st.next !in st.signals;
    if Linked(st) {
      forall x, q | x in r.wires && q in r.signals
        ensures q in r.wires[x].sigRS <==> x in r.signals[q].wires
      {
        assert WireOk(st, x);
        if q != st.next {
          assert r.signals[q] == st.signals[q];
        }
      }
      assert r.stores == st.stores && r.wires == st.wires;
    }
  }

  /** A new store gets the next fresh id, holds `root`, has no subscribers, and leaves everything
      else as it was. */
  lemma NewStoreEffect(st: State, root: Value)
    requires WF(st)
    ensures var r := NewStore(st, root).0;
      var k := NewStore(st, root).1;
      k !in st.stores && r.stores.Keys == st.stores.Keys + {k}
      && r.stores[k] == StoreRec(root, [])
      && (forall q :: q in st.stores ==> r.stores[q] == st.stores[q])
      && r.wires == st.wires && r.signals == st.signals && r.calls == st.calls
  {
    assert st.next !in st.stores;
  }

  /** Creating a store keeps the state well formed and linked. */
  lemma NewStoreOk(st: State, root: Value)
    requires WF(st)
    ensures WF(NewStore(st, root).0)
    ensures Linked(st) ==> Linked(NewStore(st, root).0)
  {
    var r := NewStore(st, root).0;
    forall x | x in r.wires ensures x < r.next && WireOk(r, x) {
      assert WireOk(st, x);
    }
    forall x | x in r.wires ensures FnOk(r.signals.Keys, r.stores.Keys, r.wires[x].fn) {
      FnOkMono(st.signals.Keys, st.stores.Keys, r.signals.Keys, r.stores.Keys, r.wires[x].fn);
    }
    assert WiresOk(r);
    assert StoresOk(r);
    assert st.next !in st.stores;
    if Linked(st) {
      forall x, q | x in r.wires && q in r.stores
        ensures q in r.wires[x].storesRS <==> x in r.stores[q].wires
      {
        assert WireOk(st, x);
        if q != st.next {
          assert r.stores[q] == st.stores[q];
        }
      }
      assert r.signals == st.signals && r.wires == st.wires;
    }
  }

  /** A write returns the signal's initial value, leaves the written value in the signal and every
      other signal value and store root as it was, and runs the subscribers, as they were at the
      time of the write, as one batch. */
  lemma WriteSignalEffect(st: State, s: SignalId, v: Value)
    requires WF(st) && s in st.signals
    ensures WriteSignal(st, s, v).1 == st.signals[s].init
    ensures var r := WriteSignal(st, s, v).0;
      WF(r) && Batch.BatchRun(st, r, st.signals[s].wires)
      && r.signals.Keys == st.signals.Keys && r.stores.Keys == st.stores.Keys
      && (forall q :: q in st.signals ==>
            r.signals[q].value == if q == s then v else st.signals[q].value)
      && (forall k :: k in st.stores ==> r.stores[k].root == st.stores[k].root)
  {
    var st1 := PutSignal(st, s, st.signals[s].(value := v));
    PutSignalWF(st, s, st.signals[s].(value := v));
    var subs := st.signals[s].wires;
    assert st1.signals[s].wires == subs;
    Batch.RunWiresEffect(st1, subs);
    Batch.BatchRunFrame(st, st1, Batch.RunWires(st1, subs), subs);
  }

  /** A write keeps every subscription linked both ways. */
  lemma WriteSignalLinked(st: State, s: SignalId, v: Value)
    requires WF(st) && Linked(st) && s in st.signals
    ensures Linked(WriteSignal(st, s, v).0)
  {
    var st1 := PutSignal(st, s, st.signals[s].(value := v));
    PutSignalWF(st, s, st.signals[s].(value := v));
    assert Linked(st1);
    Batch.RunWiresLinked(st1, st1.signals[s].wires);
  }

  /** There is no equality short-circuit on writes: writing the value a signal already holds still
      runs each subscriber that is not paused and has no ancestor among the subscribers. */
  lemma WriteSameValueRuns(st: State, s: SignalId, x: WireId)
    requires WF(st) && s in st.signals
    requires x in st.signals[s].wires && !Batch.Paused(st, x)
    requires !Batch.AncestorIn(st, x, st.signals[s].wires)
    ensures x in WriteSignal(st, s, st.signals[s].value).0.wires
    ensures WriteSignal(st, s, st.signals[s].value).0.wires[x].run == st.wires[x].run + 1
  {
    WriteSignalEffect(st, s, st.signals[s].value);
    Batch.TopmostKept(st, st.signals[s].wires, x);
  }

  /** A subscriber that recorded a non-empty cursor is notified by a change at or below it. */
  lemma NotifiedByPrefix(st: State, k: StoreId, x: WireId, p: Cursor.Path, changes: seq<Cursor.Change>, i: nat)
    requires x in st.wires && k in st.wires[x].storesRS
    requires Cursor.EncodeCursor(p) in st.wires[x].storesRS[k]
    requires p != [] && i < |changes| && p <= changes[i].path
    ensures forall xs :: x in xs ==> x in Notified(xs, st, k, changes)
  {
    Cursor.BelowHits(p, changes[i].path);
  }

  /** A subscriber none of whose recorded cursors lies on the path of any change (none is a prefix
      of a changed path, and none is the one-key path [""] when the root is replaced) is not
      notified; in particular changes strictly above or beside every recorded cursor. */
  lemma NotNotifiedOffPath(st: State, k: StoreId, x: WireId, changes: seq<Cursor.Change>)
    requires x in st.wires && k in st.wires[x].storesRS
    requires forall e :: e in st.wires[x].storesRS[k] ==>
      exists p :: p != [] && e == Cursor.EncodeCursor(p)
        && forall i :: 0 <= i < |changes| ==>
             !(p <= changes[i].path) && !(changes[i].path == [] && p == [""])
    ensures forall xs :: x !in Notified(xs, st, k, changes)
  {
    forall e | e in st.wires[x].storesRS[k] ensures !Cursor.Matches(e, changes) {
      var p :| p != [] && e == Cursor.EncodeCursor(p)
        && forall i :: 0 <= i < |changes| ==>
             !(p <= changes[i].path) && !(changes[i].path == [] && p == [""]);
      forall i | 0 <= i < |changes| ensures !Cursor.Hits(e, changes[i].path) {
        Cursor.HitsIffPrefix(p, changes[i].path);
      }
    }
  }

  /** The change callback leaves the new object graph in the store and every other store root
      and signal value as it was, and runs the subscribers the changes concern as one batch. */
  lemma StoreChangedEffect(st: State, k: StoreId, root: Value, changes: seq<Cursor.Change>)
    requires WF(st) && k in st.stores
    ensures var r := StoreChanged(st, k, root, changes);
      WF(r) && Batch.BatchRun(st, r, Notified(st.stores[k].wires, st, k, changes))
      && r.signals.Keys == st.signals.Keys && r.stores.Keys == st.stores.Keys
      && (forall q :: q in st.stores ==> r.stores[q].root == if q == k then root else st.stores[q].root)
      && (forall s :: s in st.signals ==> r.signals[s].value == st.signals[s].value)
  {
    var st1 := PutStore(st, k, st.stores[k].(root := root));
    PutStoreWF(st, k, st.stores[k].(root := root));
    var subs := Notified(st1.stores[k].wires, st1, k, changes);
    NotifiedFrame(st1.stores[k].wires, st, st1, k, changes);
    Batch.RunWiresEffect(st1, subs);
    Batch.BatchRunFrame(st, st1, Batch.RunWires(st1, subs), subs);
  }

  /** The change callback keeps every subscription linked both ways. */
  lemma StoreChangedLinked(st: State, k: StoreId, root: Value, changes: seq<Cursor.Change>)
    requires WF(st) && Linked(st) && k in st.stores
    ensures Linked(StoreChanged(st, k, root, changes))
  {
    var st1 := PutStore(st, k, st.stores[k].(root := root));
    PutStoreWF(st, k, st.stores[k].(root := root));
    assert Linked(st1);
    Batch.RunWiresLinked(st1, Notified(st1.stores[k].wires, st1, k, changes));
  }

  /** Which subscribers a change concerns depends on the wires alone. */
  lemma {:induction false} NotifiedFrame(xs: seq<WireId>, st: State, st': State, k: StoreId, changes: seq<Cursor.Change>)
    requires st.wires == st'.wires
    ensures Notified(xs, st, k, changes) == Notified(xs, st', k, changes)
    decreases |xs|
  {
    if xs != [] {
      NotifiedFrame(xs[1..], st, st', k, changes);
    }
  }

  /** `reify` returns what a tracked read of the same cursor would return, without subscribing;
      after a change callback it sees the new object graph. */
  lemma ReifyEffect(st: State, w: WireId, k: StoreId, p: Cursor.Path, root: Value, changes: seq<Cursor.Change>)
    requires WF(st) && w in st.wires && k in st.stores
    ensures Reify(st, k, p) == TrackCursor(st, w, k, p).1
    ensures k in StoreChanged(st, k, root, changes).stores
    ensures Reify(StoreChanged(st, k, root, changes), k, p) == Lookup(root, p)
  {
    StoreChangedEffect(st, k, root, changes);
  }

  /** Registering a task adds it once, after the existing ones; registering it again changes
      nothing. */
  lemma AddTaskEffect(st: State, w: WireId, t: TaskId)
    requires w in st.wires
    ensures var r := AddTask(st, w, t);
      (forall u :: u in r.wires[w].tasks <==> u in st.wires[w].tasks || u == t)
      && (t !in st.wires[w].tasks ==> r.wires[w].tasks == st.wires[w].tasks + [t])
      && (t in st.wires[w].tasks ==> r == st)
  {
    if t in st.wires[w].tasks {
      assert AddTask(st, w, t).wires == st.wires;
    }
  }

  /** Registering a task changes no link, so it keeps the state well formed and linked. */
  lemma AddTaskOk(st: State, w: WireId, t: TaskId)
    requires WF(st) && w in st.wires
    ensures WF(AddTask(st, w, t)) && (Linked(st) ==> Linked(AddTask(st, w, t)))
  {
    assert SameGraph(st, AddTask(st, w, t));
    SameGraphOk(st, AddTask(st, w, t));
  }

  // ---------------------------------------------------------------- the change callback, step by step

  /** The loop over a wire's cursors, one more cursor seen. */
  lemma MatchedStep(done: set<string>, e: string, changes: seq<Cursor.Change>)
    ensures AnyMatched(done + {e}, changes) == (AnyMatched(done, changes) || Cursor.Matches(e, changes))
  {
    if AnyMatched(done + {e}, changes) && !Cursor.Matches(e, changes) {
      var d :| d in done + {e} && Cursor.Matches(d, changes);
      assert d in done;
    }
  }

  /** `Notified` distributes over concatenation of subscriber lists. */
  lemma {:induction false} NotifiedAppend(a: seq<WireId>, b: seq<WireId>, st: State, k: StoreId,
                                          changes: seq<Cursor.Change>)
    ensures Notified(a + b, st, k, changes) == Notified(a, st, k, changes) + Notified(b, st, k, changes)
    decreases |a|
  {
    if a == [] {
      assert a + b == b;
    } else {
      assert (a + b)[0] == a[0];
      assert (a + b)[1..] == a[1..] + b;
      NotifiedAppend(a[1..], b, st, k, changes);
    }
  }

  /** One more subscriber examined by the callback's loop. */
  lemma NotifiedSnoc(xs: seq<WireId>, st: State, k: StoreId, changes: seq<Cursor.Change>, i: nat)
    requires i < |xs|
    ensures Notified(xs[..i + 1], st, k, changes)
      == Notified(xs[..i], st, k, changes) + (if Concerned(st, k, xs[i], changes) then [xs[i]] else [])
  {
    assert xs[..i + 1] == xs[..i] + [xs[i]];
    NotifiedAppend(xs[..i], [xs[i]], st, k, changes);
    assert [xs[i]][1..] == [];
  }

  /** A write keeps the state well formed and linked. */
  lemma WriteSignalOk(st: State, s: SignalId, v: Value)
    requires WF(st) && s in st.signals
    ensures WF(WriteSignal(st, s, v).0)
    ensures Linked(st) ==> Linked(WriteSignal(st, s, v).0)
  {
    WriteSignalEffect(st, s, v);
    if Linked(st) {
      WriteSignalLinked(st, s, v);
    }
  }

  /** The change callback keeps the state well formed and linked. */
  lemma StoreChangedOk(st: State, k: StoreId, root: Value, changes: seq<Cursor.Change>)
    requires WF(st) && k in st.stores
    ensures WF(StoreChanged(st, k, root, changes))
    ensures Linked(st) ==> Linked(StoreChanged(st, k, root, changes))
  {
    StoreChangedEffect(st, k, root, changes);
    if Linked(st) {
      StoreChangedLinked(st, k, root, changes);
    }
  }
}
