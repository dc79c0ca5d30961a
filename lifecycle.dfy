/** Tearing down, pausing and resuming a wire together with every wire it created, directly or
    through its children (`wireReset`, `_initWire`, `wirePause`, `wireResume`). */
module Lifecycle {
  import opened Values
  import opened Engine

  // ---------------------------------------------------------------- the child tree

  /** The wires reachable from `w` through `lower`, `w` included. */
  function Subtree(st: State, w: WireId): (r: set<WireId>)
    requires WiresOk(st) && w in st.wires
    ensures w in r
    ensures forall x :: x in r ==> x in st.wires && w <= x
    decreases st.next - w
  {
    assert WireOk(st, w);
    {w} + (set c, x | c in st.wires[w].lower && x in Subtree(st, c) :: x)
  }

  /** A set of wires closed under `lower`. */
  predicate Closed(st: State, s: set<WireId>)
  {
    forall x :: x in s && x in st.wires ==> st.wires[x].lower <= s
  }

  /** The subtree of `w` contains the children of each of its members. */
  lemma {:induction false} SubtreeClosed(st: State, w: WireId)
    requires WiresOk(st) && w in st.wires
    ensures Closed(st, Subtree(st, w))
    decreases st.next - w
  {
    assert WireOk(st, w);
    forall x | x in Subtree(st, w) && x in st.wires ensures st.wires[x].lower <= Subtree(st, w) {
      if x != w {
        var c :| c in st.wires[w].lower && x in Subtree(st, c);
        SubtreeClosed(st, c);
        assert Subtree(st, c) <= Subtree(st, w);
      } else {
        forall c | c in st.wires[w].lower ensures c in Subtree(st, w) {
          assert c in Subtree(st, c);
        }
      }
    }
  }

  /** ... and it is the least such set holding `w`: exactly the wires reachable through `lower`. */
  lemma {:induction false} SubtreeLeast(st: State, w: WireId, s: set<WireId>)
    requires WiresOk(st) && w in st.wires
    requires w in s && Closed(st, s)
    ensures Subtree(st, w) <= s
    decreases st.next - w
  {
    assert WireOk(st, w);
    forall c | c in st.wires[w].lower ensures Subtree(st, c) <= s {
      SubtreeLeast(st, c, s);
    }
  }

  /** The subtree depends on the `lower` sets alone. */
  lemma {:induction false} SubtreeFrame(st: State, st': State, w: WireId)
    requires WiresOk(st) && WiresOk(st') && w in st.wires
    requires st'.wires.Keys == st.wires.Keys && st'.next == st.next
    requires forall x :: x in st.wires ==> st'.wires[x].lower == st.wires[x].lower
    ensures Subtree(st', w) == Subtree(st, w)
    decreases st.next - w
  {
    assert WireOk(st, w);
    forall c | c in st.wires[w].lower ensures Subtree(st', c) == Subtree(st, c) {
      SubtreeFrame(st, st', c);
    }
  }

  // ---------------------------------------------------------------- state bits over a set

  /** `wire.state |= bits` on every wire of `ws`. */
  function SetBits(st: State, ws: set<WireId>, bits: bv3): State
  {
    st.(wires := map x | x in st.wires ::
      if x in ws then st.wires[x].(state := st.wires[x].state | bits) else st.wires[x])
  }

  /** `wire.state &= ~bits` on every wire of `ws`. */
  function ClearBits(st: State, ws: set<WireId>, bits: bv3): State
  {
    st.(wires := map x | x in st.wires ::
      if x in ws then st.wires[x].(state := st.wires[x].state & !bits) else st.wires[x])
  }

  /** `wirePause`: the skip bit on the wire and on every wire reachable through `lower`. */
  function Pause(st: State, w: WireId): State
    requires WiresOk(st) && w in st.wires
  {
    SetBits(st, Subtree(st, w), SKIP_RUN_QUEUE)
  }

  /** `wireResume`: the skip bit cleared over the same subtree; the result says whether the root
      wire missed a run while paused (its NEEDS_RUN bit). */
  function Resume(st: State, w: WireId): (State, bool)
    requires WiresOk(st) && w in st.wires
  {
    var r := ClearBits(st, Subtree(st, w), SKIP_RUN_QUEUE);
    (r, r.wires[w].state & NEEDS_RUN != 0)
  }

  // ---------------------------------------------------------------- reset

  /** `signal.wires.delete(x)` for every `x` of `gone`; the others keep their order. */
  function Unsubscribe(xs: seq<WireId>, gone: set<WireId>): (r: seq<WireId>)
    ensures forall x :: x in r <==> x in xs && x !in gone
    ensures Distinct(xs) ==> Distinct(r)
    decreases |xs|
  {
    if xs == [] then []
    else (if xs[0] in gone then [] else [xs[0]]) + Unsubscribe(xs[1..], gone)
  }

  /** The wires of `ws` that had read signal `s`. */
  function Readers(st: State, ws: set<WireId>, s: SignalId): set<WireId>
  {
    set x | x in ws && x in st.wires && s in st.wires[x].sigRS
  }

  /** `wireReset` applied to every wire of `ws`: each leaves the subscriber set of every signal it
      had read, and `_initWire` sets its state to NEEDS_RUN and empties `lower` and `sigRS`. */
  function ResetSet(st: State, ws: set<WireId>): State
  {
    st.(wires := map x | x in st.wires ::
          if x in ws then st.wires[x].(state := NEEDS_RUN, lower := {}, sigRS := {}) else st.wires[x],
        signals := map s | s in st.signals ::
          st.signals[s].(wires := Unsubscribe(st.signals[s].wires, Readers(st, ws, s))))
  }

  /** `wireReset(w)`: the children first, recursively, then the wire itself. */
  function Reset(st: State, w: WireId): State
    requires WiresOk(st) && w in st.wires
  {
    ResetSet(st, Subtree(st, w))
  }

  // ---------------------------------------------------------------- pause and resume

  /** Setting or clearing state bits keeps every other field, so well-formedness and the two-way
      link are kept and subtrees are unchanged. */
  lemma SetBitsOk(st: State, ws: set<WireId>, bits: bv3)
    ensures SameGraph(st, SetBits(st, ws, bits))
  {
  }

  lemma ClearBitsOk(st: State, ws: set<WireId>, bits: bv3)
    ensures SameGraph(st, ClearBits(st, ws, bits))
  {
  }

  /** `wirePause` sets the skip bit on every wire of the subtree and on no other wire, and changes
      no other bit and no other field. */
  lemma PauseEffect(st: State, w: WireId)
    requires WiresOk(st) && w in st.wires
    ensures var r := Pause(st, w);
      var sub := Subtree(st, w);
      r.wires.Keys == st.wires.Keys
      && r.signals == st.signals && r.stores == st.stores && r.next == st.next && r.calls == st.calls
      && forall x :: x in st.wires ==>
           r.wires[x] == st.wires[x].(state := r.wires[x].state)
           && r.wires[x].state & !SKIP_RUN_QUEUE == st.wires[x].state & !SKIP_RUN_QUEUE
           && (x in sub ==> r.wires[x].state & SKIP_RUN_QUEUE != 0)
           && (x !in sub ==> r.wires[x].state == st.wires[x].state)
  {
    var r := Pause(st, w);
    var sub := Subtree(st, w);
    forall x | x in st.wires
      ensures r.wires[x] == st.wires[x].(state := r.wires[x].state)
      ensures r.wires[x].state & !SKIP_RUN_QUEUE == st.wires[x].state & !SKIP_RUN_QUEUE
      ensures x in sub ==> r.wires[x].state & SKIP_RUN_QUEUE != 0
      ensures x !in sub ==> r.wires[x].state == st.wires[x].state
    {
      if x in sub {
        OrKeepsOthers(st.wires[x].state);
      }
    }
  }

  lemma OrKeepsOthers(b: bv3)
    ensures (b | SKIP_RUN_QUEUE) & !SKIP_RUN_QUEUE == b & !SKIP_RUN_QUEUE
    ensures (b | SKIP_RUN_QUEUE) & SKIP_RUN_QUEUE != 0
  {
  }

  lemma ClearKeepsOthers(b: bv3)
    ensures (b & !SKIP_RUN_QUEUE) & !SKIP_RUN_QUEUE == b & !SKIP_RUN_QUEUE
    ensures (b & !SKIP_RUN_QUEUE) & SKIP_RUN_QUEUE == 0
    ensures (b & !SKIP_RUN_QUEUE) & NEEDS_RUN == b & NEEDS_RUN
  {
  }

  /** `wireResume` clears the skip bit over the subtree and no other bit, leaves every other wire
      and field alone, and reports the root's NEEDS_RUN bit as it was before the call. */
  lemma ResumeEffect(st: State, w: WireId)
    requires WiresOk(st) && w in st.wires
    ensures Resume(st, w).1 == (st.wires[w].state & NEEDS_RUN != 0)
    ensures var r := Resume(st, w).0;
      var sub := Subtree(st, w);
      r.wires.Keys == st.wires.Keys
      && r.signals == st.signals && r.stores == st.stores && r.next == st.next && r.calls == st.calls
      && forall x :: x in st.wires ==>
           r.wires[x] == st.wires[x].(state := r.wires[x].state)
           && r.wires[x].state & !SKIP_RUN_QUEUE == st.wires[x].state & !SKIP_RUN_QUEUE
           && (x in sub ==> r.wires[x].state & SKIP_RUN_QUEUE == 0)
           && (x !in sub ==> r.wires[x].state == st.wires[x].state)
  {
    var r := Resume(st, w).0;
    var sub := Subtree(st, w);
    forall x | x in st.wires
      ensures r.wires[x] == st.wires[x].(state := r.wires[x].state)
      ensures r.wires[x].state & !SKIP_RUN_QUEUE == st.wires[x].state & !SKIP_RUN_QUEUE
      ensures x in sub ==> r.wires[x].state & SKIP_RUN_QUEUE == 0
      ensures x !in sub ==> r.wires[x].state == st.wires[x].state
    {
      if x in sub {
        ClearKeepsOthers(st.wires[x].state);
      }
    }
    ClearKeepsOthers(st.wires[w].state);
  }

  /** Resuming a paused wire restores every wire whose skip bit was clear before the pause; the
      skip bit is cleared on the rest of the subtree and left set outside it. */
  lemma ResumeAfterPause(st: State, w: WireId)
    requires WF(st) && w in st.wires
    ensures var p := Pause(st, w);
      WiresOk(p) && w in p.wires
      && var r := Resume(p, w).0;
      r.wires.Keys == st.wires.Keys && r.signals == st.signals && r.stores == st.stores
      && forall x :: x in st.wires ==>
           (st.wires[x].state & SKIP_RUN_QUEUE == 0 ==> r.wires[x] == st.wires[x])
           && (x in Subtree(st, w) ==> r.wires[x].state == st.wires[x].state & !SKIP_RUN_QUEUE)
           && (x !in Subtree(st, w) ==> r.wires[x] == st.wires[x])
  {
    SetBitsOk(st, Subtree(st, w), SKIP_RUN_QUEUE);
    var p := Pause(st, w);
    SameGraphOk(st, p);
    SubtreeFrame(st, p, w);
    PauseEffect(st, w);
    ResumeEffect(p, w);
    var r := Resume(p, w).0;
    forall x | x in st.wires
      ensures st.wires[x].state & SKIP_RUN_QUEUE == 0 ==> r.wires[x] == st.wires[x]
      ensures x in Subtree(st, w) ==> r.wires[x].state == st.wires[x].state & !SKIP_RUN_QUEUE
    {
      var b := st.wires[x].state;
      if x in Subtree(st, w) {
        PauseThenResume(b);
      }
    }
  }

  lemma PauseThenResume(b: bv3)
    ensures (b | SKIP_RUN_QUEUE) & !SKIP_RUN_QUEUE == b & !SKIP_RUN_QUEUE
    ensures b & SKIP_RUN_QUEUE == 0 ==> b & !SKIP_RUN_QUEUE == b
  {
  }

  /** Pausing twice is pausing once. */
  lemma PauseIdempotent(st: State, w: WireId)
    requires WiresOk(st) && w in st.wires
    ensures var p := Pause(st, w); WiresOk(p) && w in p.wires && Pause(p, w) == p
  {
    var sub := Subtree(st, w);
    SetBitsOk(st, sub, SKIP_RUN_QUEUE);
    var p := Pause(st, w);
    SameGraphWiresOk(st, p);
    SubtreeFrame(st, p, w);
    assert Subtree(p, w) == sub;
    SkipTwice(st, sub);
  }

  lemma SkipTwice(st: State, ws: set<WireId>)
    ensures var p := SetBits(st, ws, SKIP_RUN_QUEUE); SetBits(p, ws, SKIP_RUN_QUEUE) == p
  {
    var p := SetBits(st, ws, SKIP_RUN_QUEUE);
    var q := SetBits(p, ws, SKIP_RUN_QUEUE);
    forall x | x in p.wires ensures q.wires[x] == p.wires[x] {
      if x in ws {
        OrTwice(st.wires[x].state);
      }
    }
    assert q.wires == p.wires;
  }

  lemma OrTwice(b: bv3)
    ensures (b | SKIP_RUN_QUEUE) | SKIP_RUN_QUEUE == b | SKIP_RUN_QUEUE
  {
  }

  // ---------------------------------------------------------------- what a reset does

  lemma {:induction false} UnsubscribeCompose(xs: seq<WireId>, a: set<WireId>, b: set<WireId>)
    ensures Unsubscribe(Unsubscribe(xs, a), b) == Unsubscribe(xs, a + b)
    decreases |xs|
  {
    if xs != [] {
      UnsubscribeCompose(xs[1..], a, b);
      var rest := Unsubscribe(xs[1..], a);
      if xs[0] in a {
        assert Unsubscribe(xs, a) == rest;
      } else {
        assert Unsubscribe(xs, a) == [xs[0]] + rest;
        assert Unsubscribe(xs, a)[1..] == rest;
      }
    }
  }

  lemma {:induction false} UnsubscribeNothing(xs: seq<WireId>)
    ensures Unsubscribe(xs, {}) == xs
    decreases |xs|
  {
    if xs != [] {
      UnsubscribeNothing(xs[1..]);
      assert [xs[0]] + xs[1..] == xs;
    }
  }

  /** Resetting a set and then another is resetting their union. */
  lemma ResetSetCompose(st: State, a: set<WireId>, b: set<WireId>)
    ensures ResetSet(ResetSet(st, a), b) == ResetSet(st, a + b)
  {
    var r1 := ResetSet(st, a);
    var r2 := ResetSet(r1, b);
    var r := ResetSet(st, a + b);
    forall x | x in st.wires ensures r2.wires[x] == r.wires[x] {
    }
    assert r2.wires.Keys == r.wires.Keys;
    assert r2.wires == r.wires;
    forall s | s in st.signals ensures r2.signals[s] == r.signals[s] {
      ReadersCompose(st, a, b, s);
      UnsubscribeCompose(st.signals[s].wires, Readers(st, a, s), Readers(r1, b, s));
    }
    assert r2.signals.Keys == r.signals.Keys;
    assert r2.signals == r.signals;
  }

  /** The readers of `s` left in `b` after resetting `a`, together with the readers in `a`, are the
      readers in the union. */
  lemma ReadersCompose(st: State, a: set<WireId>, b: set<WireId>, s: SignalId)
    ensures Readers(st, a, s) + Readers(ResetSet(st, a), b, s) == Readers(st, a + b, s)
  {
    var r1 := ResetSet(st, a);
    forall x | x in Readers(r1, b, s) ensures x in Readers(st, a + b, s) {
      assert x !in a && r1.wires[x] == st.wires[x];
    }
    forall x | x in Readers(st, a + b, s) && x !in Readers(st, a, s) ensures x in Readers(r1, b, s) {
      assert x !in a && r1.wires[x] == st.wires[x];
    }
  }

  lemma ResetSetWiresOk(st: State, ws: set<WireId>)
    requires WiresOk(st)
    ensures WiresOk(ResetSet(st, ws))
  {
    var r := ResetSet(st, ws);
    forall x | x in r.wires ensures x < r.next && WireOk(r, x) {
      assert WireOk(st, x);
    }
  }

  /** A reset keeps the graph well formed. */
  lemma ResetSetOk(st: State, ws: set<WireId>)
    requires WF(st)
    ensures WF(ResetSet(st, ws))
  {
    var r := ResetSet(st, ws);
    ResetSetWiresOk(st, ws);
    assert r.signals.Keys == st.signals.Keys;
    assert BodiesOk(r);
  }

  /** Given the two-way link, a reset keeps it: a wire that is reset had every signal it is
      subscribed to in its read set, so it leaves all of them. */
  lemma ResetSetKeepsLinked(st: State, ws: set<WireId>)
    requires Linked(st)
    ensures Linked(ResetSet(st, ws))
  {
    var r := ResetSet(st, ws);
    forall x, t | x in r.wires && t in r.signals
      ensures t in r.wires[x].sigRS <==> x in r.signals[t].wires
    {
      assert x in Readers(st, ws, t) <==> x in ws && t in st.wires[x].sigRS;
    }
  }

  /** Pausing, resuming and resetting a subtree keep the graph well formed and linked. */
  lemma PauseOk(st: State, w: WireId)
    requires WiresOk(st) && w in st.wires
    ensures WF(st) ==> WF(Pause(st, w))
    ensures Linked(st) ==> Linked(Pause(st, w))
  {
    SetBitsOk(st, Subtree(st, w), SKIP_RUN_QUEUE);
    SameGraphOk(st, Pause(st, w));
  }

  lemma ResumeOk(st: State, w: WireId)
    requires WiresOk(st) && w in st.wires
    ensures WF(st) ==> WF(Resume(st, w).0)
    ensures Linked(st) ==> Linked(Resume(st, w).0)
  {
    ClearBitsOk(st, Subtree(st, w), SKIP_RUN_QUEUE);
    SameGraphOk(st, Resume(st, w).0);
  }

  lemma ResetOk(st: State, w: WireId)
    requires WiresOk(st) && w in st.wires
    ensures WF(st) ==> WF(Reset(st, w))
    ensures Linked(st) ==> Linked(Reset(st, w))
  {
    if WF(st) {
      ResetSetOk(st, Subtree(st, w));
    }
    if Linked(st) {
      ResetSetKeepsLinked(st, Subtree(st, w));
    }
  }

  /** `wireReset` sets every wire of the subtree to exactly NEEDS_RUN with no children and no read
      signals, removes each of them from the subscribers of every signal it had read (the other
      subscribers keep their order), and changes nothing else: not `storesRS`, not store
      subscriptions, not `upper`. */
  lemma ResetEffect(st: State, w: WireId)
    requires WiresOk(st) && w in st.wires
    ensures var r := Reset(st, w);
      var sub := Subtree(st, w);
      r.wires.Keys == st.wires.Keys && r.signals.Keys == st.signals.Keys
      && r.stores == st.stores && r.next == st.next && r.calls == st.calls
      && (forall x :: x in sub ==>
            r.wires[x] == st.wires[x].(state := NEEDS_RUN, lower := {}, sigRS := {}))
      && (forall x :: x in st.wires && x !in sub ==> r.wires[x] == st.wires[x])
      && (forall s :: s in st.signals ==>
            r.signals[s] == st.signals[s].(wires := r.signals[s].wires)
            && forall x :: x in r.signals[s].wires <==>
                 x in st.signals[s].wires && !(x in sub && s in st.wires[x].sigRS))
  {
    var r := Reset(st, w);
    var sub := Subtree(st, w);
    assert r == ResetSet(st, sub);
    forall s | s in st.signals
      ensures r.signals[s] == st.signals[s].(wires := r.signals[s].wires)
      ensures forall x :: x in r.signals[s].wires <==>
                x in st.signals[s].wires && !(x in sub && s in st.wires[x].sigRS)
    {
      assert r.signals[s].wires == Unsubscribe(st.signals[s].wires, Readers(st, sub, s));
    }
  }

  /** Given the two-way link, after `wireReset` no wire of the subtree is subscribed to any signal. */
  lemma ResetNoLeak(st: State, w: WireId)
    requires WiresOk(st) && Linked(st) && w in st.wires
    ensures forall s, x :: s in Reset(st, w).signals && x in Subtree(st, w) ==>
      x !in Reset(st, w).signals[s].wires
  {
    ResetSetKeepsLinked(st, Subtree(st, w));
  }

  // ---------------------------------------------------------------- the recursion of wireReset

  /** The union of the subtrees of the wires of `cs`. */
  function Forest(st: State, cs: set<WireId>): set<WireId>
    requires WiresOk(st) && cs <= st.wires.Keys
  {
    set c, x | c in cs && x in Subtree(st, c) :: x
  }

  lemma ForestBounds(st: State, cs: set<WireId>)
    requires WiresOk(st) && cs <= st.wires.Keys
    ensures cs <= Forest(st, cs) <= st.wires.Keys
  {
    forall c | c in cs ensures c in Forest(st, cs) {
      assert c in Subtree(st, c);
    }
  }

  lemma ForestClosed(st: State, cs: set<WireId>)
    requires WiresOk(st) && cs <= st.wires.Keys
    ensures Closed(st, Forest(st, cs))
  {
    var f := Forest(st, cs);
    forall x | x in f && x in st.wires ensures st.wires[x].lower <= f {
      var c :| c in cs && x in Subtree(st, c);
      SubtreeClosed(st, c);
      forall y | y in st.wires[x].lower ensures y in f {
        assert y in Subtree(st, c);
      }
    }
  }

  /** A subtree is its root plus the forest of the root's children. */
  lemma SubtreeForest(st: State, w: WireId)
    requires WiresOk(st) && w in st.wires
    ensures st.wires[w].lower <= st.wires.Keys
    ensures Subtree(st, w) == {w} + Forest(st, st.wires[w].lower)
  {
    assert WireOk(st, w);
  }

  /** After resetting a set `d` closed under `lower`, the subtree of any wire, together with `d`,
      is what its subtree was before together with `d`: the children a reset cut off are in `d`. */
  lemma {:induction false} ResetSubtree(st: State, d: set<WireId>, c: WireId)
    requires WiresOk(st) && d <= st.wires.Keys && Closed(st, d) && c in st.wires
    ensures WiresOk(ResetSet(st, d))
    ensures d + Subtree(ResetSet(st, d), c) == d + Subtree(st, c)
    decreases st.next - c
  {
    ResetSetWiresOk(st, d);
    var cur := ResetSet(st, d);
    if c in d {
      assert cur.wires[c].lower == {};
      assert Subtree(cur, c) == {c};
      SubtreeLeast(st, c, d);
    } else {
      assert WireOk(st, c);
      assert cur.wires[c].lower == st.wires[c].lower;
      forall e | e in st.wires[c].lower ensures d + Subtree(cur, e) == d + Subtree(st, e) {
        ResetSubtree(st, d, e);
      }
      forall x | x in d + Subtree(cur, c) ensures x in d + Subtree(st, c) {
        if x !in d && x != c {
          var e :| e in cur.wires[c].lower && x in Subtree(cur, e);
          assert x in d + Subtree(st, e);
        }
      }
      forall x | x in d + Subtree(st, c) ensures x in d + Subtree(cur, c) {
        if x !in d && x != c {
          var e :| e in st.wires[c].lower && x in Subtree(st, e);
          assert x in d + Subtree(cur, e);
        }
      }
    }
  }

  // ---------------------------------------------------------------- the recursion, step by step

  lemma ForestEmpty(st: State)
    requires WiresOk(st)
    ensures Forest(st, {}) == {}
  {
  }

  /** Adding a wire to a forest adds its subtree. */
  lemma SameElements<T>(a: set<T>, b: set<T>)
    requires forall x :: x in a ==> x in b
    requires forall x :: x in b ==> x in a
    ensures a == b
  {
  }

  lemma ForestIntro(st: State, cs: set<WireId>, c: WireId, x: WireId)
    requires WiresOk(st) && cs <= st.wires.Keys && c in cs && x in Subtree(st, c)
    ensures x in Forest(st, cs)
  {
  }

  lemma ForestElim(st: State, cs: set<WireId>, x: WireId) returns (c: WireId)
    requires WiresOk(st) && cs <= st.wires.Keys && x in Forest(st, cs)
    ensures c in cs && x in Subtree(st, c)
  {
    c :| c in cs && x in Subtree(st, c);
  }

  lemma ForestAddWithin(st: State, d: set<WireId>, c: WireId, x: WireId)
    requires WiresOk(st) && d <= st.wires.Keys && c in st.wires
    requires x in Forest(st, d + {c})
    ensures x in Forest(st, d) + Subtree(st, c)
  {
    var e := ForestElim(st, d + {c}, x);
    if e != c {
      ForestIntro(st, d, e, x);
    }
  }

  lemma ForestAddCovers(st: State, d: set<WireId>, c: WireId, x: WireId)
    requires WiresOk(st) && d <= st.wires.Keys && c in st.wires
    requires x in Forest(st, d) + Subtree(st, c)
    ensures x in Forest(st, d + {c})
  {
    if x in Subtree(st, c) {
      ForestIntro(st, d + {c}, c, x);
    } else {
      var e := ForestElim(st, d, x);
      ForestIntro(st, d + {c}, e, x);
    }
  }

  /** Adding a wire to a forest adds its subtree. */
  lemma ForestAdd(st: State, d: set<WireId>, c: WireId)
    requires WiresOk(st) && d <= st.wires.Keys && c in st.wires
    ensures Forest(st, d + {c}) == Forest(st, d) + Subtree(st, c)
  {
    var f := Forest(st, d);
    var g := Forest(st, d + {c});
    var t := Subtree(st, c);
    forall x | x in g ensures x in f + t {
      ForestAddWithin(st, d, c, x);
    }
    forall x | x in f + t ensures x in g {
      ForestAddCovers(st, d, c, x);
    }
    SameElements(g, f + t);
  }

  lemma SetBitsNothing(st: State, bits: bv3)
    ensures SetBits(st, {}, bits) == st
  {
    assert SetBits(st, {}, bits).wires == st.wires;
  }

  lemma ClearBitsNothing(st: State, bits: bv3)
    ensures ClearBits(st, {}, bits) == st
  {
    assert ClearBits(st, {}, bits).wires == st.wires;
  }

  lemma ResetSetNothing(st: State)
    ensures ResetSet(st, {}) == st
  {
    var r := ResetSet(st, {});
    assert r.wires == st.wires;
    forall s | s in st.signals ensures r.signals[s] == st.signals[s] {
      assert Readers(st, {}, s) == {};
      UnsubscribeNothing(st.signals[s].wires);
    }
    assert r.signals == st.signals;
  }

  lemma SetBitsCompose(st: State, a: set<WireId>, b: set<WireId>, bits: bv3)
    ensures SetBits(SetBits(st, a, bits), b, bits) == SetBits(st, a + b, bits)
  {
    var r1 := SetBits(SetBits(st, a, bits), b, bits);
    var r2 := SetBits(st, a + b, bits);
    forall x | x in st.wires ensures r1.wires[x] == r2.wires[x] {
      assert (st.wires[x].state | bits) | bits == st.wires[x].state | bits;
    }
    assert r1.wires == r2.wires;
  }

  lemma ClearBitsCompose(st: State, a: set<WireId>, b: set<WireId>, bits: bv3)
    ensures ClearBits(ClearBits(st, a, bits), b, bits) == ClearBits(st, a + b, bits)
  {
    var r1 := ClearBits(ClearBits(st, a, bits), b, bits);
    var r2 := ClearBits(st, a + b, bits);
    forall x | x in st.wires ensures r1.wires[x] == r2.wires[x] {
      assert (st.wires[x].state & !bits) & !bits == st.wires[x].state & !bits;
    }
    assert r1.wires == r2.wires;
  }

  /** `wirePause` on one more child, after the children in `d`. */
  lemma PauseStep(st: State, d: set<WireId>, c: WireId)
    requires WiresOk(st) && d <= st.wires.Keys && c in st.wires
    ensures var cur := SetBits(st, Forest(st, d), SKIP_RUN_QUEUE);
      WiresOk(cur) && c in cur.wires
      && SetBits(cur, Subtree(cur, c), SKIP_RUN_QUEUE) == SetBits(st, Forest(st, d + {c}), SKIP_RUN_QUEUE)
  {
    var cur := SetBits(st, Forest(st, d), SKIP_RUN_QUEUE);
    SetBitsOk(st, Forest(st, d), SKIP_RUN_QUEUE);
    SameGraphWiresOk(st, cur);
    SubtreeFrame(st, cur, c);
    SetBitsCompose(st, Forest(st, d), Subtree(st, c), SKIP_RUN_QUEUE);
    ForestAdd(st, d, c);
  }

  /** ... and the wire itself after all its children. */
  lemma PauseFinish(st: State, w: WireId)
    requires WiresOk(st) && w in st.wires
    ensures st.wires[w].lower <= st.wires.Keys
    ensures SetBits(SetBits(st, Forest(st, st.wires[w].lower), SKIP_RUN_QUEUE), {w}, SKIP_RUN_QUEUE)
      == Pause(st, w)
  {
    SubtreeForest(st, w);
    var f := Forest(st, st.wires[w].lower);
    SetBitsCompose(st, f, {w}, SKIP_RUN_QUEUE);
    SameElements(f + {w}, {w} + f);
  }

  lemma ResumeStep(st: State, d: set<WireId>, c: WireId)
    requires WiresOk(st) && d <= st.wires.Keys && c in st.wires
    ensures var cur := ClearBits(st, Forest(st, d), SKIP_RUN_QUEUE);
      WiresOk(cur) && c in cur.wires
      && ClearBits(cur, Subtree(cur, c), SKIP_RUN_QUEUE) == ClearBits(st, Forest(st, d + {c}), SKIP_RUN_QUEUE)
  {
    var cur := ClearBits(st, Forest(st, d), SKIP_RUN_QUEUE);
    ClearBitsOk(st, Forest(st, d), SKIP_RUN_QUEUE);
    SameGraphWiresOk(st, cur);
    SubtreeFrame(st, cur, c);
    ClearBitsCompose(st, Forest(st, d), Subtree(st, c), SKIP_RUN_QUEUE);
    ForestAdd(st, d, c);
  }

  lemma ResumeFinish(st: State, w: WireId)
    requires WiresOk(st) && w in st.wires
    ensures st.wires[w].lower <= st.wires.Keys
    ensures ClearBits(ClearBits(st, Forest(st, st.wires[w].lower), SKIP_RUN_QUEUE), {w}, SKIP_RUN_QUEUE)
      == Resume(st, w).0
  {
    SubtreeForest(st, w);
    var f := Forest(st, st.wires[w].lower);
    ClearBitsCompose(st, f, {w}, SKIP_RUN_QUEUE);
    SameElements(f + {w}, {w} + f);
  }

  /** `wireReset` on one more child, after the children in `d`. */
  lemma ResetStep(st: State, d: set<WireId>, c: WireId)
    requires WiresOk(st) && d <= st.wires.Keys && c in st.wires
    ensures var cur := ResetSet(st, Forest(st, d));
      WiresOk(cur) && c in cur.wires
      && ResetSet(cur, Subtree(cur, c)) == ResetSet(st, Forest(st, d + {c}))
  {
    var f := Forest(st, d);
    ForestBounds(st, d);
    var cur := ResetSet(st, f);
    ResetSetWiresOk(st, f);
    ForestClosed(st, d);
    ResetSubtree(st, f, c);
    ResetSetCompose(st, f, Subtree(cur, c));
    ForestAdd(st, d, c);
    assert f + Subtree(cur, c) == Forest(st, d + {c});
  }

  /** `signal.wires.delete(w)` for each signal of `ss`. */
  function Unlink(st: State, w: WireId, ss: set<SignalId>): State
  {
    st.(signals := map s | s in st.signals ::
      if s in ss then st.signals[s].(wires := Unsubscribe(st.signals[s].wires, {w})) else st.signals[s])
  }

  lemma UnlinkNothing(st: State, w: WireId)
    ensures Unlink(st, w, {}) == st
  {
    assert Unlink(st, w, {}).signals == st.signals;
  }

  lemma UnlinkStep(st: State, w: WireId, ss: set<SignalId>, s: SignalId)
    requires s in st.signals && s !in ss
    ensures var cur := Unlink(st, w, ss);
      s in cur.signals
      && cur.(signals := cur.signals[s := cur.signals[s].(wires := Unsubscribe(cur.signals[s].wires, {w}))])
         == Unlink(st, w, ss + {s})
  {
    var cur := Unlink(st, w, ss);
    var r := cur.(signals := cur.signals[s := cur.signals[s].(wires := Unsubscribe(cur.signals[s].wires, {w}))]);
    assert r.signals == Unlink(st, w, ss + {s}).signals;
  }

  /** Unlinking the wire from every signal it read and then `_initWire` is resetting it alone. */
  lemma ResetOne(st: State, w: WireId)
    requires w in st.wires && st.wires[w].sigRS <= st.signals.Keys
    ensures var cur := Unlink(st, w, st.wires[w].sigRS);
      cur.(wires := cur.wires[w := cur.wires[w].(state := NEEDS_RUN, lower := {}, sigRS := {})])
      == ResetSet(st, {w})
  {
    var cur := Unlink(st, w, st.wires[w].sigRS);
    var r := cur.(wires := cur.wires[w := cur.wires[w].(state := NEEDS_RUN, lower := {}, sigRS := {})]);
    var e := ResetSet(st, {w});
    assert r.wires == e.wires;
    forall s | s in st.signals ensures r.signals[s] == e.signals[s] {
      if s in st.wires[w].sigRS {
        assert Readers(st, {w}, s) == {w};
      } else {
        assert Readers(st, {w}, s) == {};
        UnsubscribeNothing(st.signals[s].wires);
      }
    }
    assert r.signals == e.signals;
  }

  lemma ResetFinish(st: State, w: WireId)
    requires WiresOk(st) && w in st.wires
    ensures st.wires[w].lower <= st.wires.Keys
    ensures var cur := ResetSet(st, Forest(st, st.wires[w].lower));
      w in cur.wires && cur.wires[w] == st.wires[w]
      && ResetSet(cur, {w}) == Reset(st, w)
  {
    SubtreeForest(st, w);
    var f := Forest(st, st.wires[w].lower);
    assert w !in f;
    ResetSetCompose(st, f, {w});
    SameElements(f + {w}, {w} + f);
  }
}
