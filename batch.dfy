/** `_runWires`: the batch runner a signal write and a store change hand their subscribers to, and
    the store's change callback that picks the subscribers a batch of change records concerns. */
module Batch {
  import opened Values
  import opened Engine
  import Cursor
  import Lifecycle

  // ---------------------------------------------------------------- the first pass: filtering

  predicate Paused(st: State, w: WireId)
    requires w in st.wires
  {
    st.wires[w].state & SKIP_RUN_QUEUE != 0
  }

  /** Some wire above `w` along `upper` links is in `t`: the `while ((curr = curr.upper))` walk. */
  predicate AncestorIn(st: State, w: WireId, t: seq<WireId>)
    requires WiresOk(st) && w in st.wires
    decreases w
  {
    assert WireOk(st, w);
    match st.wires[w].upper
    case None => false
    case Some(u) => u in t || AncestorIn(st, u, t)
  }

  /** `toRun.delete(w)`. */
  function Delete(t: seq<WireId>, w: WireId): (r: seq<WireId>)
    ensures forall x :: x in r <==> x in t && x != w
    ensures Distinct(t) ==> Distinct(r)
  {
    Lifecycle.Unsubscribe(t, {w})
  }

  /** What is left of `toRun` after the first `forEach` has visited `batch[i..]`: a paused wire is
      deleted, and so is a wire with an ancestor still in `toRun` when it is visited. */
  function Survivors(st: State, batch: seq<WireId>, i: nat, t: seq<WireId>): seq<WireId>
    requires WiresOk(st) && i <= |batch| && forall x :: x in batch ==> x in st.wires
    decreases |batch| - i
  {
    if i == |batch| then t
    else
      var w := batch[i];
      var t1 := if Paused(st, w) then Delete(t, w) else t;
      var t2 := if AncestorIn(st, w, t1) then Delete(t1, w) else t1;
      Survivors(st, batch, i + 1, t2)
  }

  /** The wires `_runWires(batch)` runs, in order. */
  function Kept(st: State, batch: seq<WireId>): (r: seq<WireId>)
    requires WiresOk(st) && forall x :: x in batch ==> x in st.wires
    ensures forall x :: x in r ==> x in batch
    ensures Distinct(batch) ==> Distinct(r)
  {
    SurvivorsShrink(st, batch, 0, batch);
    Survivors(st, batch, 0, batch)
  }

  /** The paused wires of the batch, which the first pass marks NEEDS_RUN. */
  function PausedIn(st: State, batch: seq<WireId>): set<WireId>
    requires forall x :: x in batch ==> x in st.wires
  {
    set x | x in batch && Paused(st, x)
  }

  // ---------------------------------------------------------------- the second pass: running

  /** One `task(val)` call per post-run task, in order. */
  function TaskCalls(w: WireId, tasks: seq<TaskId>, val: Value): (r: seq<TaskCall>)
    ensures |r| == |tasks|
    ensures forall i :: 0 <= i < |tasks| ==> r[i] == TaskCall(w, tasks[i], val)
  {
    seq(|tasks|, i requires 0 <= i < |tasks| => TaskCall(w, tasks[i], val))
  }

  /** `wire.run = wire.run + 1`. */
  function Count(st: State, w: WireId): State
    requires w in st.wires
  {
    st.(wires := st.wires[w := st.wires[w].(run := st.wires[w].run + 1)])
  }

  /** `wire.value = val`, then `task(val)` for every task of the wire. */
  function Publish(st: State, w: WireId, val: Value): State
    requires w in st.wires
  {
    st.(wires := st.wires[w := st.wires[w].(value := val)],
        calls := st.calls + TaskCalls(w, st.wires[w].tasks, val))
  }

  /** One iteration of the second `forEach`: run the body, count the run, and when the result is
      not `===` the previous value store it and call every task with it. */
  function ExecOne(st: State, w: WireId): (State, Value)
    requires WF(st) && w in st.wires
  {
    var prev := st.wires[w].value;
    var (s1, val) := RunFn(st, w, st.wires[w].fn);
    var s2 := Count(s1, w);
    if val == prev then (s2, val) else (Publish(s2, w, val), val)
  }

  /** What a run may change besides run counters, values and the task log. */
  predicate Keeps(st: State, r: State)
  {
    st.next <= r.next && st.wires.Keys <= r.wires.Keys
    && (forall x :: x in st.wires ==>
          r.wires[x].state == st.wires[x].state && r.wires[x].fn == st.wires[x].fn
          && r.wires[x].tasks == st.wires[x].tasks && r.wires[x].upper == st.wires[x].upper)
    && r.signals.Keys == st.signals.Keys && r.stores.Keys == st.stores.Keys
    && (forall s :: s in st.signals ==> r.signals[s].value == st.signals[s].value)
    && (forall k :: k in st.stores ==> r.stores[k].root == st.stores[k].root)
  }

  lemma KeepsTrans(a: State, b: State, c: State)
    requires Keeps(a, b) && Keeps(b, c)
    ensures Keeps(a, c)
  {
  }

  lemma CountEffect(st: State, w: WireId)
    requires w in st.wires
    ensures SameGraph(st, Count(st, w)) && Keeps(st, Count(st, w))
    ensures Count(st, w).calls == st.calls
    ensures forall x :: x in st.wires ==>
      Count(st, w).wires[x].value == st.wires[x].value
      && Count(st, w).wires[x].run == if x == w then st.wires[w].run + 1 else st.wires[x].run
  {
  }

  lemma PublishEffect(st: State, w: WireId, val: Value)
    requires w in st.wires
    ensures SameGraph(st, Publish(st, w, val)) && Keeps(st, Publish(st, w, val))
    ensures Publish(st, w, val).calls == st.calls + TaskCalls(w, st.wires[w].tasks, val)
    ensures forall x :: x in st.wires ==>
      Publish(st, w, val).wires[x].run == st.wires[x].run
      && Publish(st, w, val).wires[x].value == if x == w then val else st.wires[x].value
  {
  }

  lemma ExtendsKeeps(st: State, r: State)
    requires Extends(st, r)
    ensures Keeps(st, r)
    ensures r.calls == st.calls && forall x :: x in st.wires ==> r.wires[x].run == st.wires[x].run
  {
  }

  /** A batch run keeps the graph well formed and, given it, the two-way link. */
  lemma ExecOneOk(st: State, w: WireId)
    requires WF(st) && w in st.wires
    ensures WF(ExecOne(st, w).0)
    ensures Linked(st) ==> Linked(ExecOne(st, w).0)
  {
    var (s1, val) := RunFn(st, w, st.wires[w].fn);
    if Linked(st) {
      RunFnKeepsLinked(st, w, st.wires[w].fn);
    }
    CountEffect(s1, w);
    var s2 := Count(s1, w);
    SameGraphOk(s1, s2);
    if val == st.wires[w].value {
      assert ExecOne(st, w).0 == s2;
    } else {
      assert ExecOne(st, w).0 == Publish(s2, w, val);
      PublishEffect(s2, w, val);
      SameGraphOk(s2, Publish(s2, w, val));
    }
  }

  /** A run of wire `w` in the batch: `run` goes up by exactly one, `value` is the new result, and
      each task of `w` is called once with it, in order, exactly when it differs from the value
      before the run. No other wire's run is counted, and no state bit, body, task list or parent
      changes, nor any signal value or store root. */
  lemma ExecOneEffect(st: State, w: WireId)
    requires WF(st) && w in st.wires
    ensures var r := ExecOne(st, w).0;
      var val := ExecOne(st, w).1;
      Keeps(st, r)
      && r.wires[w].run == st.wires[w].run + 1
      && r.wires[w].value == val
      && r.calls == st.calls + (if val == st.wires[w].value then [] else TaskCalls(w, st.wires[w].tasks, val))
      && (forall x :: x in st.wires && x != w ==> r.wires[x].run == st.wires[x].run)
  {
    var p := RunFn(st, w, st.wires[w].fn);
    ExtendsKeeps(st, p.0);
    if p.1 == st.wires[w].value {
      assert ExecOne(st, w) == (Count(p.0, w), p.1);
      CountStep(st, p.0, w);
    } else {
      assert ExecOne(st, w) == (Publish(Count(p.0, w), w, p.1), p.1);
      PublishStep(st, p.0, w, p.1);
    }
  }

  lemma CountStep(st: State, s1: State, w: WireId)
    requires w in st.wires && Keeps(st, s1) && s1.calls == st.calls
    requires forall x :: x in st.wires ==> s1.wires[x].run == st.wires[x].run
    ensures var r := Count(s1, w);
      Keeps(st, r) && r.wires[w].run == st.wires[w].run + 1
      && r.wires[w].value == s1.wires[w].value && r.calls == st.calls + []
      && (forall x :: x in st.wires && x != w ==> r.wires[x].run == st.wires[x].run)
  {
    CountEffect(s1, w);
    KeepsTrans(st, s1, Count(s1, w));
  }

  lemma PublishStep(st: State, s1: State, w: WireId, val: Value)
    requires w in st.wires && Keeps(st, s1) && s1.calls == st.calls
    requires forall x :: x in st.wires ==> s1.wires[x].run == st.wires[x].run
    ensures var r := Publish(Count(s1, w), w, val);
      Keeps(st, r) && r.wires[w].run == st.wires[w].run + 1
      && r.wires[w].value == val && r.calls == st.calls + TaskCalls(w, st.wires[w].tasks, val)
      && (forall x :: x in st.wires && x != w ==> r.wires[x].run == st.wires[x].run)
  {
    CountStep(st, s1, w);
    var s2 := Count(s1, w);
    PublishEffect(s2, w, val);
    KeepsTrans(st, s2, Publish(s2, w, val));
  }

  // ---------------------------------------------------------------- the whole batch

  /** The second `forEach`: the wires `ks[i..]` run one after the other. */
  function ExecAll(st: State, ks: seq<WireId>, i: nat): (r: State)
    requires WF(st) && i <= |ks| && forall x :: x in ks ==> x in st.wires
    ensures WF(r)
    decreases |ks| - i
  {
    if i == |ks| then st
    else
      ExecOneOk(st, ks[i]);
      ExecOneGrows(st, ks[i]);
      ExecAll(ExecOne(st, ks[i]).0, ks, i + 1)
  }

  lemma ExecOneGrows(st: State, w: WireId)
    requires WF(st) && w in st.wires
    ensures st.wires.Keys <= ExecOne(st, w).0.wires.Keys
  {
    ExecOneEffect(st, w);
  }

  /** `_runWires(batch)`: the paused wires of the snapshot are marked NEEDS_RUN, the survivors of
      the first pass run in order. */
  function RunWires(st: State, batch: seq<WireId>): State
    requires WF(st) && Distinct(batch) && forall x :: x in batch ==> x in st.wires
  {
    var m := Lifecycle.SetBits(st, PausedIn(st, batch), NEEDS_RUN);
    Lifecycle.SetBitsOk(st, PausedIn(st, batch), NEEDS_RUN);
    SameGraphOk(st, m);
    ExecAll(m, Kept(st, batch), 0)
  }

  // ---------------------------------------------------------------- facts about the first pass

  lemma {:induction false} SurvivorsShrink(st: State, batch: seq<WireId>, i: nat, t: seq<WireId>)
    requires WiresOk(st) && i <= |batch| && forall x :: x in batch ==> x in st.wires
    ensures forall x :: x in Survivors(st, batch, i, t) ==> x in t
    ensures Distinct(t) ==> Distinct(Survivors(st, batch, i, t))
    decreases |batch| - i
  {
    if i < |batch| {
      var w := batch[i];
      var t1 := if Paused(st, w) then Delete(t, w) else t;
      var t2 := if AncestorIn(st, w, t1) then Delete(t1, w) else t1;
      SurvivorsShrink(st, batch, i + 1, t2);
    }
  }

  /** A wire's ancestor found in a smaller set is found in a larger one. */
  lemma {:induction false} AncestorInMono(st: State, w: WireId, t: seq<WireId>, t': seq<WireId>)
    requires WiresOk(st) && w in st.wires
    requires forall x :: x in t ==> x in t'
    ensures AncestorIn(st, w, t) ==> AncestorIn(st, w, t')
    decreases w
  {
    assert WireOk(st, w);
    if st.wires[w].upper.Some? {
      AncestorInMono(st, st.wires[w].upper.value, t, t');
    }
  }

  /** A wire that is visited from step `i` on and survives was not paused and had no ancestor left
      among the survivors. */
  lemma {:induction false} SurvivorOk(st: State, batch: seq<WireId>, i: nat, t: seq<WireId>, x: WireId)
    requires WiresOk(st) && i <= |batch| && forall y :: y in batch ==> y in st.wires
    requires x in batch[i..] && x in Survivors(st, batch, i, t)
    ensures !Paused(st, x) && !AncestorIn(st, x, Survivors(st, batch, i, t))
    decreases |batch| - i
  {
    var w := batch[i];
    var t1 := if Paused(st, w) then Delete(t, w) else t;
    var t2 := if AncestorIn(st, w, t1) then Delete(t1, w) else t1;
    var r := Survivors(st, batch, i + 1, t2);
    assert r == Survivors(st, batch, i, t);
    if w == x {
      SurvivorsShrink(st, batch, i + 1, t2);
      assert !Paused(st, x) && !AncestorIn(st, x, t1);
      AncestorInMono(st, x, r, t1);
    } else {
      assert x in batch[i + 1..];
      SurvivorOk(st, batch, i + 1, t2, x);
    }
  }

  /** A wire of `t` that is not paused and has no ancestor in `t` survives. */
  lemma {:induction false} TopSurvives(st: State, batch: seq<WireId>, i: nat, t: seq<WireId>, x: WireId)
    requires WiresOk(st) && i <= |batch| && forall y :: y in batch ==> y in st.wires
    requires x in st.wires && x in t && !Paused(st, x) && !AncestorIn(st, x, t)
    ensures x in Survivors(st, batch, i, t)
    decreases |batch| - i
  {
    if i < |batch| {
      var w := batch[i];
      var t1 := if Paused(st, w) then Delete(t, w) else t;
      AncestorInMono(st, x, t1, t);
      var t2 := if AncestorIn(st, w, t1) then Delete(t1, w) else t1;
      AncestorInMono(st, x, t2, t1);
      TopSurvives(st, batch, i + 1, t2, x);
    }
  }

  /** No wire that runs is paused. */
  lemma KeptNotPaused(st: State, batch: seq<WireId>)
    requires WiresOk(st) && forall x :: x in batch ==> x in st.wires
    ensures forall x :: x in Kept(st, batch) ==> !Paused(st, x)
  {
    forall x | x in Kept(st, batch) ensures !Paused(st, x) {
      SurvivorOk(st, batch, 0, batch, x);
    }
  }

  /** No wire that runs has an ancestor that also runs. */
  lemma KeptNoAncestor(st: State, batch: seq<WireId>)
    requires WiresOk(st) && forall x :: x in batch ==> x in st.wires
    ensures forall x :: x in Kept(st, batch) ==> !AncestorIn(st, x, Kept(st, batch))
  {
    forall x | x in Kept(st, batch) ensures !AncestorIn(st, x, Kept(st, batch)) {
      SurvivorOk(st, batch, 0, batch, x);
    }
  }

  /** A wire of the snapshot that is not paused and has no ancestor anywhere in it always runs. */
  lemma TopmostKept(st: State, batch: seq<WireId>, x: WireId)
    requires WiresOk(st) && forall y :: y in batch ==> y in st.wires
    requires x in batch && !Paused(st, x) && !AncestorIn(st, x, batch)
    ensures x in Kept(st, batch)
  {
    TopSurvives(st, batch, 0, batch, x);
  }

  /** When a wire has an ancestor in `t`, it has one in `t` that has no ancestor in `t` itself. */
  lemma {:induction false} Topmost(st: State, x: WireId, t: seq<WireId>) returns (z: WireId)
    requires WiresOk(st) && x in st.wires && AncestorIn(st, x, t)
    ensures z in st.wires && z in t && AncestorIn(st, x, [z]) && !AncestorIn(st, z, t)
    decreases x
  {
    assert WireOk(st, x);
    var u := st.wires[x].upper.value;
    if AncestorIn(st, u, t) {
      z := Topmost(st, u, t);
    } else {
      z := u;
    }
  }

  /** With no paused wire in the snapshot, exactly the wires with no ancestor in it run. */
  lemma KeptExact(st: State, batch: seq<WireId>)
    requires WiresOk(st) && forall x :: x in batch ==> x in st.wires
    requires forall x :: x in batch ==> !Paused(st, x)
    ensures forall x :: x in Kept(st, batch) <==> x in batch && !AncestorIn(st, x, batch)
  {
    forall x | x in batch
      ensures x in Kept(st, batch) <==> !AncestorIn(st, x, batch)
    {
      if !AncestorIn(st, x, batch) {
        TopmostKept(st, batch, x);
      } else if x in Kept(st, batch) {
        var z := Topmost(st, x, batch);
        TopmostKept(st, batch, z);
        AncestorInMono(st, x, [z], Kept(st, batch));
        KeptNoAncestor(st, batch);
        assert false;
      }
    }
  }

  /** The nested test: a parent and its child in one batch, neither paused; only the parent runs
      (the child is replaced by the parent's re-run). */
  lemma NestedExample(st: State, w: WireId, b: WireId)
    requires WiresOk(st) && w in st.wires && b in st.wires && w != b
    requires st.wires[w].upper == None && st.wires[b].upper == Some(w)
    requires !Paused(st, w) && !Paused(st, b)
    ensures Kept(st, [w, b]) == [w]
  {
    var batch := [w, b];
    assert !AncestorIn(st, w, batch);
    assert AncestorIn(st, b, batch);
    assert Survivors(st, batch, 2, [w]) == [w];
    assert Delete(batch, b) == [w] by {
      assert batch[1..] == [b] && [b][1..] == [];
      assert Lifecycle.Unsubscribe([b], {b}) == [];
      assert Lifecycle.Unsubscribe(batch, {b}) == [w] + Lifecycle.Unsubscribe([b], {b});
    }
    assert Survivors(st, batch, 1, batch) == [w];
  }

  /** A paused parent visited before its child is deleted first, so the child runs. */
  lemma PausedParentFirst(st: State, p: WireId, c: WireId)
    requires WiresOk(st) && p in st.wires && c in st.wires && p != c
    requires st.wires[p].upper == None && st.wires[c].upper == Some(p)
    requires Paused(st, p) && !Paused(st, c)
    ensures Kept(st, [p, c]) == [c]
  {
    var batch := [p, c];
    assert Delete(batch, p) == [c] by {
      assert Lifecycle.Unsubscribe(batch, {p}) == Lifecycle.Unsubscribe([c], {p});
    }
    assert !AncestorIn(st, p, [c]);
    assert !AncestorIn(st, c, [c]);
    assert Survivors(st, batch, 1, [c]) == [c];
  }

  /** A paused parent visited after its child is still in the queue when the child is visited, so
      neither runs: the first pass depends on the order of the snapshot. */
  lemma PausedParentLast(st: State, p: WireId, c: WireId)
    requires WiresOk(st) && p in st.wires && c in st.wires && p != c
    requires st.wires[p].upper == None && st.wires[c].upper == Some(p)
    requires Paused(st, p) && !Paused(st, c)
    ensures Kept(st, [c, p]) == []
  {
    var batch := [c, p];
    assert AncestorIn(st, c, batch);
    assert Delete(batch, c) == [p] by {
      assert Lifecycle.Unsubscribe(batch, {c}) == Lifecycle.Unsubscribe([p], {c});
    }
    assert Delete([p], p) == [] by {
      assert Lifecycle.Unsubscribe([p], {p}) == Lifecycle.Unsubscribe([], {p});
    }
    assert Survivors(st, batch, 1, [p]) == [];
  }

  // ---------------------------------------------------------------- facts about the whole batch

  /** Between `st` and `r` exactly the wires of `ws` were counted as run, once each. */
  predicate Counted(st: State, r: State, ws: seq<WireId>)
    requires st.wires.Keys <= r.wires.Keys
  {
    forall x :: x in st.wires ==> r.wires[x].run == st.wires[x].run + (if x in ws then 1 else 0)
  }

  lemma CountedCompose(st: State, s1: State, r: State, w: WireId, ws: seq<WireId>)
    requires w in st.wires && w !in ws && Keeps(st, s1) && Keeps(s1, r)
    requires Counted(st, s1, [w]) && Counted(s1, r, ws)
    ensures Keeps(st, r) && Counted(st, r, [w] + ws)
  {
    KeepsTrans(st, s1, r);
    forall x | x in st.wires
      ensures r.wires[x].run == st.wires[x].run + (if x in [w] + ws then 1 else 0)
    {
      assert x in [w] + ws <==> x == w || x in ws;
    }
  }

  lemma ExecOneCounted(st: State, w: WireId)
    requires WF(st) && w in st.wires
    ensures Keeps(st, ExecOne(st, w).0) && st.calls <= ExecOne(st, w).0.calls
    ensures Counted(st, ExecOne(st, w).0, [w])
  {
    ExecOneEffect(st, w);
  }

  /** A suffix of a sequence of distinct elements is its head followed by the rest, which does not
      hold the head again. */
  lemma SliceHead(ks: seq<WireId>, i: nat)
    requires i < |ks| && Distinct(ks)
    ensures ks[i..] == [ks[i]] + ks[i + 1..] && ks[i] !in ks[i + 1..]
  {
    assert ks[i..] == [ks[i]] + ks[i + 1..];
  }

  /** One step of the second pass. */
  lemma ExecAllStep(st: State, ks: seq<WireId>, i: nat)
    requires WF(st) && i < |ks| && forall x :: x in ks ==> x in st.wires
    ensures WF(ExecOne(st, ks[i]).0) && forall x :: x in ks ==> x in ExecOne(st, ks[i]).0.wires
    ensures ExecAll(st, ks, i) == ExecAll(ExecOne(st, ks[i]).0, ks, i + 1)
  {
    ExecOneOk(st, ks[i]);
    ExecOneGrows(st, ks[i]);
  }

  /** Running `ks[i..]` counts one run for each of them and none for any other wire, only appends
      to the task log, and changes no state bit, body, task list, parent, signal value or store root. */
  lemma {:induction false} ExecAllEffect(st: State, ks: seq<WireId>, i: nat)
    requires WF(st) && i <= |ks| && Distinct(ks) && forall x :: x in ks ==> x in st.wires
    ensures Keeps(st, ExecAll(st, ks, i)) && st.calls <= ExecAll(st, ks, i).calls
    ensures Counted(st, ExecAll(st, ks, i), ks[i..])
    decreases |ks| - i
  {
    if i < |ks| {
      var w := ks[i];
      var s1 := ExecOne(st, w).0;
      ExecAllStep(st, ks, i);
      ExecOneCounted(st, w);
      ExecAllEffect(s1, ks, i + 1);
      var r := ExecAll(s1, ks, i + 1);
      SliceHead(ks, i);
      CountedCompose(st, s1, r, w, ks[i + 1..]);
    } else {
      assert Counted(st, st, ks[i..]);
    }
  }

  lemma {:induction false} ExecAllLinked(st: State, ks: seq<WireId>, i: nat)
    requires WF(st) && Linked(st) && i <= |ks| && forall x :: x in ks ==> x in st.wires
    ensures Linked(ExecAll(st, ks, i))
    decreases |ks| - i
  {
    if i < |ks| {
      ExecOneOk(st, ks[i]);
      ExecOneEffect(st, ks[i]);
      ExecAllLinked(ExecOne(st, ks[i]).0, ks, i + 1);
    }
  }

  /** What `_runWires(batch)` does to the wires: every paused wire of the snapshot gains
      NEEDS_RUN and keeps its other bits, no other wire's state changes, exactly the survivors of
      the first pass are counted as run, no wire disappears and the task log is only appended to. */
  predicate BatchRun(st: State, r: State, batch: seq<WireId>)
    requires WiresOk(st) && forall x :: x in batch ==> x in st.wires
  {
    st.wires.Keys <= r.wires.Keys && st.calls <= r.calls
    && forall x :: x in st.wires ==>
         r.wires[x].state == (if x in batch && Paused(st, x)
                              then st.wires[x].state | NEEDS_RUN else st.wires[x].state)
         && r.wires[x].run == st.wires[x].run + (if x in Kept(st, batch) then 1 else 0)
  }

  /** Signal values and store roots are as they were. */
  predicate SameSources(st: State, r: State)
  {
    r.signals.Keys == st.signals.Keys && r.stores.Keys == st.stores.Keys
    && (forall s :: s in st.signals ==> r.signals[s].value == st.signals[s].value)
    && (forall k :: k in st.stores ==> r.stores[k].root == st.stores[k].root)
  }

  /** `_runWires(batch)` keeps the state well formed, runs the batch as `BatchRun` says, and changes
      no signal value or store root (wire bodies only read). */
  lemma RunWiresEffect(st: State, batch: seq<WireId>)
    requires WF(st) && Distinct(batch) && forall x :: x in batch ==> x in st.wires
    ensures WF(RunWires(st, batch)) && BatchRun(st, RunWires(st, batch), batch)
    ensures SameSources(st, RunWires(st, batch))
  {
    var m := Lifecycle.SetBits(st, PausedIn(st, batch), NEEDS_RUN);
    Lifecycle.SetBitsOk(st, PausedIn(st, batch), NEEDS_RUN);
    SameGraphOk(st, m);
    var ks := Kept(st, batch);
    ExecAllEffect(m, ks, 0);
    assert ks[0..] == ks;
  }

  /** A batch run judged against a state with the same wires. */
  lemma BatchRunFrame(st: State, st': State, r: State, batch: seq<WireId>)
    requires WiresOk(st) && WiresOk(st') && st.wires == st'.wires && st.calls == st'.calls
    requires forall x :: x in batch ==> x in st.wires
    requires BatchRun(st', r, batch)
    ensures BatchRun(st, r, batch)
  {
    KeptFrame(st, st', batch);
  }

  /** `_runWires` keeps every wire and its subscriptions linked both ways. */
  lemma RunWiresLinked(st: State, batch: seq<WireId>)
    requires WF(st) && Linked(st) && Distinct(batch) && forall x :: x in batch ==> x in st.wires
    ensures Linked(RunWires(st, batch))
  {
    var m := Lifecycle.SetBits(st, PausedIn(st, batch), NEEDS_RUN);
    Lifecycle.SetBitsOk(st, PausedIn(st, batch), NEEDS_RUN);
    SameGraphOk(st, m);
    ExecAllLinked(m, Kept(st, batch), 0);
  }

  /** A paused wire in a batch is not run, stays paused, and the run it missed is what
      `wireResume` reports when the wire is resumed afterwards. */
  lemma PausedMissedRun(st: State, batch: seq<WireId>, x: WireId)
    requires WF(st) && Distinct(batch) && forall y :: y in batch ==> y in st.wires
    requires x in batch && Paused(st, x)
    ensures var r := RunWires(st, batch);
      WiresOk(r) && x in r.wires && Paused(r, x)
      && r.wires[x].run == st.wires[x].run
      && Lifecycle.Resume(r, x).1
  {
    var r := RunWires(st, batch);
    RunWiresEffect(st, batch);
    KeptNotPaused(st, batch);
    var b := st.wires[x].state;
    assert r.wires[x].state == b | NEEDS_RUN;
    assert (b | NEEDS_RUN) & NEEDS_RUN != 0 && (b | NEEDS_RUN) & SKIP_RUN_QUEUE != 0;
    Lifecycle.ResumeEffect(r, x);
  }

  /** The first pass looks only at the wires. */
  lemma {:induction false} AncestorInFrame(st: State, st': State, w: WireId, t: seq<WireId>)
    requires WiresOk(st) && WiresOk(st') && st.wires == st'.wires && w in st.wires
    ensures AncestorIn(st, w, t) == AncestorIn(st', w, t)
    decreases w
  {
    assert WireOk(st, w);
    if st.wires[w].upper.Some? {
      AncestorInFrame(st, st', st.wires[w].upper.value, t);
    }
  }

  lemma {:induction false} SurvivorsFrame(st: State, st': State, batch: seq<WireId>, i: nat, t: seq<WireId>)
    requires WiresOk(st) && WiresOk(st') && st.wires == st'.wires
    requires i <= |batch| && forall x :: x in batch ==> x in st.wires
    ensures Survivors(st, batch, i, t) == Survivors(st', batch, i, t)
    decreases |batch| - i
  {
    if i < |batch| {
      var w := batch[i];
      var t1 := if Paused(st, w) then Delete(t, w) else t;
      AncestorInFrame(st, st', w, t1);
      var t2 := if AncestorIn(st, w, t1) then Delete(t1, w) else t1;
      SurvivorsFrame(st, st', batch, i + 1, t2);
    }
  }

  lemma KeptFrame(st: State, st': State, batch: seq<WireId>)
    requires WiresOk(st) && WiresOk(st') && st.wires == st'.wires
    requires forall x :: x in batch ==> x in st.wires
    ensures Kept(st, batch) == Kept(st', batch)
  {
    SurvivorsFrame(st, st', batch, 0, batch);
  }

  // ---------------------------------------------------------------- the two passes, step by step

  /** The walk along `upper` sees only the links, which a change of state bits leaves alone. */
  lemma {:induction false} AncestorInSame(st: State, st': State, w: WireId, t: seq<WireId>)
    requires WiresOk(st) && WiresOk(st') && SameGraph(st, st') && w in st.wires
    ensures AncestorIn(st, w, t) == AncestorIn(st', w, t)
    decreases w
  {
    assert WireOk(st, w);
    assert SameLinks(st'.wires[w], st.wires[w]);
    if st.wires[w].upper.Some? {
      AncestorInSame(st, st', st.wires[w].upper.value, t);
    }
  }

  lemma MarkStart(st: State, batch: seq<WireId>)
    requires forall x :: x in batch ==> x in st.wires
    ensures Lifecycle.SetBits(st, PausedIn(st, batch[..0]), NEEDS_RUN) == st
  {
    assert PausedIn(st, batch[..0]) == {};
    Lifecycle.SetBitsNothing(st, NEEDS_RUN);
  }

  /** Visiting `batch[i]` in the first pass marks it when it is paused, and nothing else; it was
      not touched before, since the batch has no repeats. */
  lemma MarkStep(st: State, batch: seq<WireId>, i: nat)
    requires i < |batch| && Distinct(batch) && forall x :: x in batch ==> x in st.wires
    ensures var cur := Lifecycle.SetBits(st, PausedIn(st, batch[..i]), NEEDS_RUN);
      batch[i] in cur.wires && cur.wires[batch[i]] == st.wires[batch[i]]
      && Lifecycle.SetBits(st, PausedIn(st, batch[..i + 1]), NEEDS_RUN)
         == if Paused(st, batch[i]) then Lifecycle.SetBits(cur, {batch[i]}, NEEDS_RUN) else cur
  {
    var w := batch[i];
    var a := PausedIn(st, batch[..i]);
    assert batch[..i + 1] == batch[..i] + [w];
    assert w !in batch[..i];
    if Paused(st, w) {
      assert PausedIn(st, batch[..i + 1]) == a + {w};
      Lifecycle.SetBitsCompose(st, a, {w}, NEEDS_RUN);
    } else {
      assert PausedIn(st, batch[..i + 1]) == a;
    }
  }

  lemma TaskCallsSnoc(w: WireId, tasks: seq<TaskId>, k: nat, val: Value)
    requires k < |tasks|
    ensures TaskCalls(w, tasks[..k + 1], val) == TaskCalls(w, tasks[..k], val) + [TaskCall(w, tasks[k], val)]
  {
    var a := TaskCalls(w, tasks[..k + 1], val);
    var b := TaskCalls(w, tasks[..k], val) + [TaskCall(w, tasks[k], val)];
    assert |a| == |b|;
    forall j | 0 <= j < |a| ensures a[j] == b[j] {
    }
  }

  lemma ExecOneUnfold(st: State, w: WireId)
    requires WF(st) && w in st.wires
    ensures var p := RunFn(st, w, st.wires[w].fn);
      ExecOne(st, w).0 == if p.1 == st.wires[w].value then Count(p.0, w) else Publish(Count(p.0, w), w, p.1)
  {
  }
}
