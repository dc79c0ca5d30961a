/** The dependency graph of signals, wires and stores, and what one wire run does to it:
    tracked reads through a SubToken, child creation through the wire factory, and `runWire`. */
module Engine {
  import opened Values
  import Cursor

  /** Object identity of wires, signals and stores is modelled by ids from one fresh counter. */
  type WireId = nat
  type SignalId = nat
  type StoreId = nat
  /** A post-run task callback, by identity; calling it is recorded rather than executed. */
  type TaskId = nat

  /** The 3-bit wire state [RUNNING][SKIP_RUN_QUEUE][NEEDS_RUN]. RUNNING is never set by this core. */
  const RUNNING: bv3 := 4
  const SKIP_RUN_QUEUE: bv3 := 2
  const NEEDS_RUN: bv3 := 1

  /** What a SubToken can be called with: a signal or a store cursor. */
  datatype Target = SignalRef(sig: SignalId) | CursorRef(store: StoreId, path: Cursor.Path)

  /** What a script returns: a constant, or the value of its n-th read (Undefined if it made fewer). */
  datatype Result = Lit(value: Value) | NthRead(index: nat)

  /** The argument a wire is built from (`runWire`'s three branches): a signal, a cursor, or a user
      function, abstracted as a script of the reads and child creations it performs. */
  datatype Fn =
    | SignalFn(sig: SignalId)
    | CursorFn(store: StoreId, path: Cursor.Path)
    | Script(steps: seq<Step>, result: Result)

  datatype Step =
    | Read(target: Target)          // `$(x)`: a read through the SubToken
    | SignalRead(sig: SignalId)     // `sig($)`: the signal's own tracked read
    | Child(body: Fn, call: bool)   // `wire(fn)` through the factory, then `b()` when `call`

  datatype WireRec = WireRec(
    fn: Fn,
    state: bv3,
    sigRS: set<SignalId>,
    storesRS: map<StoreId, set<string>>,
    tasks: seq<TaskId>,
    upper: Option<WireId>,
    lower: set<WireId>,
    run: nat,
    value: Value)

  /** `init` is the value the signal was created with (what a write returns). */
  datatype SignalRec = SignalRec(init: Value, value: Value, wires: seq<WireId>)

  datatype StoreRec = StoreRec(root: Value, wires: seq<WireId>)

  /** One call `task(val)` of a post-run task of `wire`. */
  datatype TaskCall = TaskCall(wire: WireId, task: TaskId, arg: Value)

  datatype State = State(
    wires: map<WireId, WireRec>,
    signals: map<SignalId, SignalRec>,
    stores: map<StoreId, StoreRec>,
    next: nat,
    calls: seq<TaskCall>)

  // ---------------------------------------------------------------- insertion-ordered sets

  predicate Distinct<T(==)>(xs: seq<T>)
  {
    forall i, j :: 0 <= i < j < |xs| ==> xs[i] != xs[j]
  }

  /** `Set.prototype.add` on an insertion-ordered set. */
  function Add<T(==,!new)>(xs: seq<T>, x: T): (r: seq<T>)
    ensures forall y :: y in r <==> y in xs || y == x
    ensures Distinct(xs) ==> Distinct(r)
  {
    if x in xs then xs else xs + [x]
  }

  // ---------------------------------------------------------------- well-formedness

  /** Every signal and store a wire body names exists. */
  predicate FnOk(sigs: set<SignalId>, stores: set<StoreId>, fn: Fn)
    decreases fn
  {
    match fn
    case SignalFn(s) => s in sigs
    case CursorFn(k, _) => k in stores
    case Script(steps, _) =>
      forall i :: 0 <= i < |steps| ==>
        match steps[i]
        case Read(SignalRef(s)) => s in sigs
        case Read(CursorRef(k, _)) => k in stores
        case SignalRead(s) => s in sigs
        case Child(b, _) => FnOk(sigs, stores, b)
  }

  /** A body valid for some signals and stores stays valid when more exist. */
  lemma {:induction false} FnOkMono(sigs: set<SignalId>, stores: set<StoreId>, sigs': set<SignalId>, stores': set<StoreId>, fn: Fn)
    requires sigs <= sigs' && stores <= stores' && FnOk(sigs, stores, fn)
    ensures FnOk(sigs', stores', fn)
    decreases fn
  {
    if fn.Script? {
      forall i | 0 <= i < |fn.steps| && fn.steps[i].Child?
        ensures FnOk(sigs', stores', fn.steps[i].body)
      {
        assert fn.steps[i] < fn;
        FnOkMono(sigs, stores, sigs', stores', fn.steps[i].body);
      }
    }
  }

  /** The links of `rec`, as the record of wire `w`, point at existing entities; its parent was
      created before it and its children after it. */
  predicate LinksOk(st: State, w: WireId, rec: WireRec)
  {
    (rec.upper.Some? ==> rec.upper.value in st.wires && rec.upper.value < w)
    && (forall c :: c in rec.lower ==> c in st.wires && w < c)
    && rec.sigRS <= st.signals.Keys
    && rec.storesRS.Keys <= st.stores.Keys
  }

  predicate WireOk(st: State, w: WireId)
    requires w in st.wires
  {
    LinksOk(st, w, st.wires[w])
  }

  predicate WiresOk(st: State)
  {
    forall w :: w in st.wires ==> w < st.next && WireOk(st, w)
  }

  /** Every wire body names only signals and stores that exist. */
  predicate BodiesOk(st: State)
  {
    forall w :: w in st.wires ==> FnOk(st.signals.Keys, st.stores.Keys, st.wires[w].fn)
  }

  /** Subscriber sets hold existing wires, each once. */
  predicate SignalsOk(st: State)
  {
    forall s :: s in st.signals ==>
      s < st.next && Distinct(st.signals[s].wires)
      && forall x :: x in st.signals[s].wires ==> x in st.wires
  }

  predicate StoresOk(st: State)
  {
    forall k :: k in st.stores ==>
      k < st.next && Distinct(st.stores[k].wires)
      && forall x :: x in st.stores[k].wires ==> x in st.wires
  }

  predicate WF(st: State)
  {
    WiresOk(st) && BodiesOk(st) && SignalsOk(st) && StoresOk(st)
  }

  /** The two-way link: a wire lists a signal (store) among what it read exactly when the signal
      (store) lists the wire among its subscribers. */
  predicate Linked(st: State)
  {
    (forall w, s :: w in st.wires && s in st.signals ==>
       (s in st.wires[w].sigRS <==> w in st.signals[s].wires))
    && (forall w, k :: w in st.wires && k in st.stores ==>
          (k in st.wires[w].storesRS <==> w in st.stores[k].wires))
  }

  /** What running wire bodies may not change: signal values, store roots, the task log, and the
      body, state bits, run counter, tasks and parent of every wire that already exists. */
  predicate Extends(st: State, st': State)
  {
    st.next <= st'.next
    && st'.calls == st.calls
    && st'.signals.Keys == st.signals.Keys
    && st'.stores.Keys == st.stores.Keys
    && (forall s :: s in st.signals ==>
          st'.signals[s].value == st.signals[s].value && st'.signals[s].init == st.signals[s].init)
    && (forall k :: k in st.stores ==> st'.stores[k].root == st.stores[k].root)
    && (forall x :: x in st.wires ==>
          x in st'.wires
          && st'.wires[x].fn == st.wires[x].fn
          && st'.wires[x].state == st.wires[x].state
          && st'.wires[x].run == st.wires[x].run
          && st'.wires[x].tasks == st.wires[x].tasks
          && st'.wires[x].upper == st.wires[x].upper)
  }

  lemma ExtendsTrans(a: State, b: State, c: State)
    requires Extends(a, b) && Extends(b, c)
    ensures Extends(a, c)
  {
  }

  // ---------------------------------------------------------------- single-record updates

  function PutWire(st: State, w: WireId, rec: WireRec): State
  {
    st.(wires := st.wires[w := rec])
  }

  function PutSignal(st: State, s: SignalId, sr: SignalRec): State
  {
    st.(signals := st.signals[s := sr])
  }

  function PutStore(st: State, k: StoreId, m: StoreRec): State
  {
    st.(stores := st.stores[k := m])
  }

  /** Replacing an existing wire's record, or adding the record of the next fresh id, keeps the
      state well formed when the record's links and body are valid. */
  lemma PutWireWF(st: State, w: WireId, rec: WireRec)
    requires WF(st) && (w in st.wires || w == st.next)
    requires LinksOk(st, w, rec) && FnOk(st.signals.Keys, st.stores.Keys, rec.fn)
    ensures var st1 := PutWire(st, w, rec).(next := if w == st.next then w + 1 else st.next); WF(st1)
  {
    var st1 := PutWire(st, w, rec).(next := if w == st.next then w + 1 else st.next);
    PutWireWiresOk(st, w, rec, st1);
    PutWireBodiesOk(st, w, rec, st1);
    PutWireSignalsOk(st, w, rec, st1);
  }

  lemma PutWireWiresOk(st: State, w: WireId, rec: WireRec, st1: State)
    requires WiresOk(st) && (w in st.wires || w == st.next) && LinksOk(st, w, rec)
    requires st1 == PutWire(st, w, rec).(next := if w == st.next then w + 1 else st.next)
    ensures WiresOk(st1)
  {
    forall x | x in st1.wires ensures x < st1.next && WireOk(st1, x) {
      if x != w {
        assert WireOk(st, x);
      }
    }
  }

  lemma PutWireBodiesOk(st: State, w: WireId, rec: WireRec, st1: State)
    requires BodiesOk(st) && FnOk(st.signals.Keys, st.stores.Keys, rec.fn)
    requires st1 == PutWire(st, w, rec).(next := if w == st.next then w + 1 else st.next)
    ensures BodiesOk(st1)
  {
    assert st1.signals == st.signals && st1.stores == st.stores;
  }

  lemma PutWireSignalsOk(st: State, w: WireId, rec: WireRec, st1: State)
    requires SignalsOk(st) && StoresOk(st)
    requires st1 == PutWire(st, w, rec).(next := if w == st.next then w + 1 else st.next)
    ensures SignalsOk(st1) && StoresOk(st1)
  {
    assert st1.signals == st.signals && st1.stores == st.stores;
    assert st.wires.Keys <= st1.wires.Keys;
  }

  lemma PutSignalWF(st: State, s: SignalId, sr: SignalRec)
    requires WF(st) && s in st.signals
    requires Distinct(sr.wires) && forall x :: x in sr.wires ==> x in st.wires
    ensures WF(PutSignal(st, s, sr))
  {
    var st1 := PutSignal(st, s, sr);
    assert st1.signals.Keys == st.signals.Keys;
    forall x | x in st1.wires ensures x < st1.next && WireOk(st1, x) {
      assert WireOk(st, x);
    }
    assert WiresOk(st1);
  }

  lemma PutStoreWF(st: State, k: StoreId, m: StoreRec)
    requires WF(st) && k in st.stores
    requires Distinct(m.wires) && forall x :: x in m.wires ==> x in st.wires
    ensures WF(PutStore(st, k, m))
  {
    var st1 := PutStore(st, k, m);
    assert st1.stores.Keys == st.stores.Keys;
    forall x | x in st1.wires ensures x < st1.next && WireOk(st1, x) {
      assert WireOk(st, x);
    }
    assert WiresOk(st1);
  }

  /** Record updates that keep a wire's body, state bits, run counter, tasks and parent. */
  predicate SameCore(a: WireRec, b: WireRec)
  {
    a.fn == b.fn && a.state == b.state && a.run == b.run && a.tasks == b.tasks && a.upper == b.upper
  }

  lemma PutWireExtends(st: State, w: WireId, rec: WireRec)
    requires w in st.wires ==> SameCore(st.wires[w], rec)
    ensures Extends(st, PutWire(st, w, rec))
    ensures w !in st.wires ==> Extends(st, PutWire(st, w, rec).(next := st.next + 1))
  {
    var st1 := PutWire(st, w, rec);
    assert st1.signals == st.signals && st1.stores == st.stores;
  }

  lemma PutSignalExtends(st: State, s: SignalId, sr: SignalRec)
    requires s in st.signals && sr.value == st.signals[s].value && sr.init == st.signals[s].init
    ensures Extends(st, PutSignal(st, s, sr))
  {
    assert PutSignal(st, s, sr).signals.Keys == st.signals.Keys;
  }

  lemma PutStoreExtends(st: State, k: StoreId, m: StoreRec)
    requires k in st.stores && m.root == st.stores[k].root
    ensures Extends(st, PutStore(st, k, m))
  {
    assert PutStore(st, k, m).stores.Keys == st.stores.Keys;
  }

  // ---------------------------------------------------------------- tracked reads

  /** `wire.value = v`. */
  function SetValue(st: State, w: WireId, v: Value): State
    requires w in st.wires
  {
    PutWire(st, w, st.wires[w].(value := v))
  }

  /** The signal's tracked read `sig($)`: the two-way link, then the current value. */
  function Link(st: State, w: WireId, s: SignalId): (State, Value)
    requires w in st.wires && s in st.signals
  {
    var rec := st.wires[w].(sigRS := st.wires[w].sigRS + {s});
    var sr := st.signals[s].(wires := Add(st.signals[s].wires, w));
    (PutSignal(PutWire(st, w, rec), s, sr), st.signals[s].value)
  }

  /** `wire.storesRS` for store `k` after recording the encoded path `enc`: added to the existing
      set, or a new set holding just it. */
  function RecordPath(rs: map<StoreId, set<string>>, k: StoreId, enc: string): map<StoreId, set<string>>
  {
    rs[k := if k in rs then rs[k] + {enc} else {enc}]
  }

  /** A read of a cursor through the SubToken: subscribe the wire to the store, record the
      encoded path, and return (and store in `wire.value`) the value at the path. */
  function TrackCursor(st: State, w: WireId, k: StoreId, p: Cursor.Path): (State, Value)
    requires w in st.wires && k in st.stores
  {
    var v := Lookup(st.stores[k].root, p);
    var rec := st.wires[w].(storesRS := RecordPath(st.wires[w].storesRS, k, Cursor.EncodeCursor(p)), value := v);
    var m := st.stores[k].(wires := Add(st.stores[k].wires, w));
    (PutStore(PutWire(st, w, rec), k, m), v)
  }

  /** A call of the wire's SubToken `$` (`getSubtoken`): a cursor is tracked as above; a signal
      is read with `sig($)` and the value is also stored in `wire.value`. */
  function TokenRead(st: State, w: WireId, t: Target): (State, Value)
    requires w in st.wires
    requires t.SignalRef? ==> t.sig in st.signals
    requires t.CursorRef? ==> t.store in st.stores
  {
    match t
    case SignalRef(s) =>
      var (s1, v) := Link(st, w, s);
      (SetValue(s1, w, v), v)
    case CursorRef(k, p) =>
      TrackCursor(st, w, k, p)
  }

  lemma SetValueOk(st: State, w: WireId, v: Value)
    requires WF(st) && w in st.wires
    ensures WF(SetValue(st, w, v)) && Extends(st, SetValue(st, w, v))
    ensures SetValue(st, w, v).wires[w].value == v
  {
    assert WireOk(st, w);
    PutWireWF(st, w, st.wires[w].(value := v));
    PutWireExtends(st, w, st.wires[w].(value := v));
  }

  lemma LinkOk(st: State, w: WireId, s: SignalId)
    requires WF(st) && w in st.wires && s in st.signals
    ensures WF(Link(st, w, s).0) && Extends(st, Link(st, w, s).0)
  {
    var rec := st.wires[w].(sigRS := st.wires[w].sigRS + {s});
    var sr := st.signals[s].(wires := Add(st.signals[s].wires, w));
    assert WireOk(st, w);
    PutWireWF(st, w, rec);
    PutWireExtends(st, w, rec);
    var s1 := PutWire(st, w, rec);
    assert Distinct(st.signals[s].wires);
    PutSignalWF(s1, s, sr);
    PutSignalExtends(s1, s, sr);
    ExtendsTrans(st, s1, PutSignal(s1, s, sr));
  }

  lemma TrackCursorOk(st: State, w: WireId, k: StoreId, p: Cursor.Path)
    requires WF(st) && w in st.wires && k in st.stores
    ensures WF(TrackCursor(st, w, k, p).0) && Extends(st, TrackCursor(st, w, k, p).0)
    ensures TrackCursor(st, w, k, p).0.wires[w].value == TrackCursor(st, w, k, p).1
  {
    var v := Lookup(st.stores[k].root, p);
    var rec := st.wires[w].(storesRS := RecordPath(st.wires[w].storesRS, k, Cursor.EncodeCursor(p)), value := v);
    var m := st.stores[k].(wires := Add(st.stores[k].wires, w));
    assert WireOk(st, w);
    PutWireWF(st, w, rec);
    PutWireExtends(st, w, rec);
    var s1 := PutWire(st, w, rec);
    assert Distinct(st.stores[k].wires);
    PutStoreWF(s1, k, m);
    PutStoreExtends(s1, k, m);
    ExtendsTrans(st, s1, PutStore(s1, k, m));
  }

  lemma TokenReadOk(st: State, w: WireId, t: Target)
    requires WF(st) && w in st.wires
    requires t.SignalRef? ==> t.sig in st.signals
    requires t.CursorRef? ==> t.store in st.stores
    ensures WF(TokenRead(st, w, t).0) && Extends(st, TokenRead(st, w, t).0)
    ensures TokenRead(st, w, t).0.wires[w].value == TokenRead(st, w, t).1
  {
    match t
    case SignalRef(s) =>
      LinkOk(st, w, s);
      var (s1, v) := Link(st, w, s);
      SetValueOk(s1, w, v);
      ExtendsTrans(st, s1, SetValue(s1, w, v));
    case CursorRef(k, p) =>
      TrackCursorOk(st, w, k, p);
  }

  // ---------------------------------------------------------------- wire creation and runs

  function Fresh(fn: Fn, upper: Option<WireId>): WireRec
  {
    WireRec(fn, 0, {}, map[], [], upper, {}, 0, Undefined)
  }

  /** `wire(fn)`: a wire with the next fresh id, state 0, empty sets, run 0 and an undefined value. */
  function AddFresh(st: State, fn: Fn, upper: Option<WireId>): State
  {
    PutWire(st, st.next, Fresh(fn, upper)).(next := st.next + 1)
  }

  /** `w.lower.add(c)`. */
  function Adopt(st: State, p: WireId, c: WireId): State
    requires p in st.wires
  {
    PutWire(st, p, st.wires[p].(lower := st.wires[p].lower + {c}))
  }

  /** `wire(fn)`, and for `upper == Some(p)` the factory of wire p, which also sets
      `subWire.upper = w` and adds the new wire to p's children. */
  function NewWire(st: State, fn: Fn, upper: Option<WireId>): (State, WireId)
    requires upper.Some? ==> upper.value in st.wires
  {
    var s1 := AddFresh(st, fn, upper);
    if upper.Some? then (Adopt(s1, upper.value, st.next), st.next) else (s1, st.next)
  }

  lemma AddFreshOk(st: State, fn: Fn, upper: Option<WireId>)
    requires WF(st) && FnOk(st.signals.Keys, st.stores.Keys, fn)
    requires upper.Some? ==> upper.value in st.wires
    ensures WF(AddFresh(st, fn, upper)) && Extends(st, AddFresh(st, fn, upper))
    ensures st.next !in st.wires && st.next in AddFresh(st, fn, upper).wires
  {
    var st1 := AddFresh(st, fn, upper);
    FreshLinksOk(st, fn, upper);
    PutWireWiresOk(st, st.next, Fresh(fn, upper), st1);
    PutWireBodiesOk(st, st.next, Fresh(fn, upper), st1);
    PutWireSignalsOk(st, st.next, Fresh(fn, upper), st1);
    PutWireExtends(st, st.next, Fresh(fn, upper));
  }

  lemma FreshLinksOk(st: State, fn: Fn, upper: Option<WireId>)
    requires WiresOk(st) && (upper.Some? ==> upper.value in st.wires)
    ensures st.next !in st.wires && LinksOk(st, st.next, Fresh(fn, upper))
  {
    if upper.Some? {
      assert upper.value < st.next;
    }
  }

  lemma AdoptOk(st: State, p: WireId, c: WireId)
    requires WF(st) && p in st.wires && c in st.wires && p < c
    ensures WF(Adopt(st, p, c)) && Extends(st, Adopt(st, p, c))
  {
    var prec := st.wires[p].(lower := st.wires[p].lower + {c});
    assert WireOk(st, p);
    PutWireWF(st, p, prec);
    PutWireExtends(st, p, prec);
  }

  lemma NewWireOk(st: State, fn: Fn, upper: Option<WireId>)
    requires WF(st) && FnOk(st.signals.Keys, st.stores.Keys, fn)
    requires upper.Some? ==> upper.value in st.wires
    ensures var (r, id) := NewWire(st, fn, upper);
      WF(r) && Extends(st, r) && id == st.next && id !in st.wires && id in r.wires
  {
    AddFreshOk(st, fn, upper);
    var s1 := AddFresh(st, fn, upper);
    if upper.Some? {
      assert upper.value < st.next;
      AdoptOk(s1, upper.value, st.next);
      ExtendsTrans(st, s1, Adopt(s1, upper.value, st.next));
    }
  }

  function ResultOf(res: Result, vals: seq<Value>): Value
  {
    match res
    case Lit(v) => v
    case NthRead(n) => if n < |vals| then vals[n] else Undefined
  }

  /** `runWire(fn, $, factory)`: execute the body with wire `w`'s token and factory; the result is
      also stored in `wire.value`. A run keeps the graph well formed and changes no signal value,
      store root, task log, or body, state, run counter, tasks or parent of an existing wire. */
  function RunFn(st: State, w: WireId, fn: Fn): (r: (State, Value))
    requires WF(st) && w in st.wires && FnOk(st.signals.Keys, st.stores.Keys, fn)
    ensures WF(r.0) && Extends(st, r.0)
    ensures r.0.wires[w].value == r.1
    decreases fn, 1, 0
  {
    match fn
    case SignalFn(s) =>
      TokenReadOk(st, w, SignalRef(s));
      var (s1, v) := TokenRead(st, w, SignalRef(s));
      SetValueOk(s1, w, v);
      ExtendsTrans(st, s1, SetValue(s1, w, v));
      (SetValue(s1, w, v), v)
    case CursorFn(k, p) =>
      TokenReadOk(st, w, CursorRef(k, p));
      var (s1, v) := TokenRead(st, w, CursorRef(k, p));
      SetValueOk(s1, w, v);
      ExtendsTrans(st, s1, SetValue(s1, w, v));
      (SetValue(s1, w, v), v)
    case Script(_, res) =>
      var (s1, vals) := RunSteps(st, w, fn, 0, []);
      var v := ResultOf(res, vals);
      SetValueOk(s1, w, v);
      ExtendsTrans(st, s1, SetValue(s1, w, v));
      (SetValue(s1, w, v), v)
  }

  /** The steps of a script from step `i` on, collecting the values its reads return. */
  function RunSteps(st: State, w: WireId, fn: Fn, i: nat, vals: seq<Value>): (r: (State, seq<Value>))
    requires fn.Script? && i <= |fn.steps|
    requires WF(st) && w in st.wires && FnOk(st.signals.Keys, st.stores.Keys, fn)
    ensures WF(r.0) && Extends(st, r.0)
    decreases fn, 0, |fn.steps| - i
  {
    if i == |fn.steps| then (st, vals)
    else
      match fn.steps[i]
      case Read(t) =>
        TokenReadOk(st, w, t);
        var (s1, v) := TokenRead(st, w, t);
        var r := RunSteps(s1, w, fn, i + 1, vals + [v]);
        ExtendsTrans(st, s1, r.0);
        r
      case SignalRead(s) =>
        LinkOk(st, w, s);
        var (s1, v) := Link(st, w, s);
        var r := RunSteps(s1, w, fn, i + 1, vals + [v]);
        ExtendsTrans(st, s1, r.0);
        r
      case Child(body, call) =>
        NewWireOk(st, body, Some(w));
        var (s1, c) := NewWire(st, body, Some(w));
        var s2 := if call then RunFn(s1, c, body).0 else s1;
        ExtendsTrans(st, s1, s2);
        var r := RunSteps(s2, w, fn, i + 1, vals);
        ExtendsTrans(st, s2, r.0);
        r
  }

  // ---------------------------------------------------------------- what a tracked read does

  /** `sig($)` links both ways and returns the signal's value: the signal joins the wire's read set,
      the wire is appended to the signal's subscribers unless already there, and no other wire or
      signal, no store and no other field changes. */
  lemma LinkEffect(st: State, w: WireId, s: SignalId)
    requires w in st.wires && s in st.signals
    ensures var (r, v) := Link(st, w, s);
      v == st.signals[s].value
      && r.wires.Keys == st.wires.Keys && r.signals.Keys == st.signals.Keys
      && r.stores == st.stores && r.next == st.next && r.calls == st.calls
      && r.wires[w] == st.wires[w].(sigRS := st.wires[w].sigRS + {s})
      && r.signals[s] == st.signals[s].(wires := r.signals[s].wires)
      && (forall x :: x in r.signals[s].wires <==> x in st.signals[s].wires || x == w)
      && st.signals[s].wires <= r.signals[s].wires
      && (forall x :: x in st.wires && x != w ==> r.wires[x] == st.wires[x])
      && (forall t :: t in st.signals && t != s ==> r.signals[t] == st.signals[t])
  {
    var r := Link(st, w, s).0;
    assert r.wires == st.wires[w := st.wires[w].(sigRS := st.wires[w].sigRS + {s})];
    assert r.signals == st.signals[s := st.signals[s].(wires := Add(st.signals[s].wires, w))];
  }

  /** Reading the same signal twice links no more than reading it once. */
  lemma LinkIdempotent(st: State, w: WireId, s: SignalId)
    requires w in st.wires && s in st.signals
    ensures Link(Link(st, w, s).0, w, s) == Link(st, w, s)
  {
    var r := Link(st, w, s).0;
    var r2 := Link(r, w, s).0;
    LinkEffect(st, w, s);
    LinkEffect(r, w, s);
    assert r2.wires[w] == r.wires[w];
    assert r2.wires == r.wires;
    assert r2.signals[s].wires == Add(r.signals[s].wires, w) == r.signals[s].wires;
    assert r2.signals == r.signals;
  }

  /** A cursor read subscribes the wire to the store, adds the encoded path to the wire's paths for
      that store (keeping the paths it had), stores the value at the path in `wire.value`, and
      changes nothing else. */
  lemma TrackCursorEffect(st: State, w: WireId, k: StoreId, p: Cursor.Path)
    requires w in st.wires && k in st.stores
    ensures var (r, v) := TrackCursor(st, w, k, p);
      var old_paths := if k in st.wires[w].storesRS then st.wires[w].storesRS[k] else {};
      v == Lookup(st.stores[k].root, p)
      && r.wires.Keys == st.wires.Keys && r.stores.Keys == st.stores.Keys
      && r.signals == st.signals && r.next == st.next && r.calls == st.calls
      && r.wires[w] == st.wires[w].(storesRS := r.wires[w].storesRS, value := v)
      && r.wires[w].storesRS.Keys == st.wires[w].storesRS.Keys + {k}
      && r.wires[w].storesRS[k] == old_paths + {Cursor.EncodeCursor(p)}
      && (forall j :: j in st.wires[w].storesRS && j != k ==>
            r.wires[w].storesRS[j] == st.wires[w].storesRS[j])
      && r.stores[k] == st.stores[k].(wires := r.stores[k].wires)
      && (forall x :: x in r.stores[k].wires <==> x in st.stores[k].wires || x == w)
      && st.stores[k].wires <= r.stores[k].wires
      && (forall x :: x in st.wires && x != w ==> r.wires[x] == st.wires[x])
      && (forall j :: j in st.stores && j != k ==> r.stores[j] == st.stores[j])
  {
    var r := TrackCursor(st, w, k, p).0;
    var rs := RecordPath(st.wires[w].storesRS, k, Cursor.EncodeCursor(p));
    assert r.wires == st.wires[w := st.wires[w].(storesRS := rs, value := Lookup(st.stores[k].root, p))];
    assert r.stores == st.stores[k := st.stores[k].(wires := Add(st.stores[k].wires, w))];
  }

  /** Reading the same cursor twice records no more than reading it once. */
  lemma TrackCursorIdempotent(st: State, w: WireId, k: StoreId, p: Cursor.Path)
    requires w in st.wires && k in st.stores
    ensures TrackCursor(TrackCursor(st, w, k, p).0, w, k, p) == TrackCursor(st, w, k, p)
  {
    var r := TrackCursor(st, w, k, p).0;
    var r2 := TrackCursor(r, w, k, p).0;
    TrackCursorEffect(st, w, k, p);
    TrackCursorEffect(r, w, k, p);
    assert r2.wires[w].storesRS == r.wires[w].storesRS;
    assert r2.wires[w] == r.wires[w];
    assert r2.wires == r.wires;
    assert r2.stores[k].wires == Add(r.stores[k].wires, w) == r.stores[k].wires;
    assert r2.stores == r.stores;
  }

  /** Both forms of a SubToken read are idempotent. */
  lemma TokenReadIdempotent(st: State, w: WireId, t: Target)
    requires w in st.wires
    requires t.SignalRef? ==> t.sig in st.signals
    requires t.CursorRef? ==> t.store in st.stores
    ensures TokenRead(TokenRead(st, w, t).0, w, t) == TokenRead(st, w, t)
  {
    match t
    case SignalRef(s) =>
      var (s1, v) := Link(st, w, s);
      var r := SetValue(s1, w, v);
      LinkEffect(st, w, s);
      var (r1, v1) := Link(r, w, s);
      LinkEffect(r, w, s);
      LinkIdempotent(st, w, s);
      assert v1 == v;
      assert r1.signals == s1.signals;
      assert r1.wires == r.wires;
      assert SetValue(r1, w, v1) == r;
    case CursorRef(k, p) =>
      TrackCursorIdempotent(st, w, k, p);
  }

  /** `wire(fn)` through the factory of p adds exactly one wire, with a fresh id, the given body
      and parent and everything else empty or zero, to p's children; nothing else changes. */
  lemma NewWireEffect(st: State, fn: Fn, upper: Option<WireId>)
    requires upper.Some? ==> upper.value in st.wires
    ensures var (r, id) := NewWire(st, fn, upper);
      id == st.next && r.next == st.next + 1
      && r.wires.Keys == st.wires.Keys + {id}
      && r.wires[id] == WireRec(fn, 0, {}, map[], [], upper, if upper == Some(id) then {id} else {}, 0, Undefined)
      && (upper.Some? && upper.value != id ==>
            r.wires[upper.value] == st.wires[upper.value].(lower := st.wires[upper.value].lower + {id}))
      && (forall x :: x in st.wires && Some(x) != upper && x != id ==> r.wires[x] == st.wires[x])
      && r.signals == st.signals && r.stores == st.stores && r.calls == st.calls
  {
  }

  // ---------------------------------------------------------------- the two-way link is kept

  lemma LinkKeepsLinked(st: State, w: WireId, s: SignalId)
    requires Linked(st) && w in st.wires && s in st.signals
    ensures Linked(Link(st, w, s).0)
  {
    LinkEffect(st, w, s);
    var r := Link(st, w, s).0;
    forall x, t | x in r.wires && t in r.signals
      ensures t in r.wires[x].sigRS <==> x in r.signals[t].wires
    {
      if x != w && t != s {
        assert r.wires[x] == st.wires[x] && r.signals[t] == st.signals[t];
      }
    }
  }

  lemma SetValueKeepsLinked(st: State, w: WireId, v: Value)
    requires Linked(st) && w in st.wires
    ensures Linked(SetValue(st, w, v))
  {
    var r := SetValue(st, w, v);
    assert forall x :: x in st.wires ==>
      (r.wires[x].sigRS == st.wires[x].sigRS && r.wires[x].storesRS == st.wires[x].storesRS);
  }

  lemma TrackCursorKeepsLinked(st: State, w: WireId, k: StoreId, p: Cursor.Path)
    requires Linked(st) && w in st.wires && k in st.stores
    ensures Linked(TrackCursor(st, w, k, p).0)
  {
    TrackCursorEffect(st, w, k, p);
    var r := TrackCursor(st, w, k, p).0;
    forall x, j | x in r.wires && j in r.stores
      ensures j in r.wires[x].storesRS <==> x in r.stores[j].wires
    {
      if x != w && j != k {
        assert r.wires[x] == st.wires[x] && r.stores[j] == st.stores[j];
      }
    }
    forall x, t | x in r.wires && t in r.signals
      ensures t in r.wires[x].sigRS <==> x in r.signals[t].wires
    {
      assert r.wires[x].sigRS == st.wires[x].sigRS;
    }
  }

  lemma TokenReadKeepsLinked(st: State, w: WireId, t: Target)
    requires Linked(st) && w in st.wires
    requires t.SignalRef? ==> t.sig in st.signals
    requires t.CursorRef? ==> t.store in st.stores
    ensures Linked(TokenRead(st, w, t).0)
  {
    match t
    case SignalRef(s) =>
      LinkKeepsLinked(st, w, s);
      LinkEffect(st, w, s);
      var (s1, v) := Link(st, w, s);
      SetValueKeepsLinked(s1, w, v);
    case CursorRef(k, p) =>
      TrackCursorKeepsLinked(st, w, k, p);
  }

  /** A fresh wire has read nothing and no signal or store lists it. */
  lemma NewWireKeepsLinked(st: State, fn: Fn, upper: Option<WireId>)
    requires WF(st) && Linked(st)
    requires upper.Some? ==> upper.value in st.wires
    ensures Linked(NewWire(st, fn, upper).0)
  {
    NewWireEffect(st, fn, upper);
    var (r, id) := NewWire(st, fn, upper);
    FreshLinksOk(st, fn, upper);
    forall x, t | x in r.wires && t in r.signals
      ensures t in r.wires[x].sigRS <==> x in r.signals[t].wires
    {
      if x == id {
        assert id !in st.signals[t].wires;
      } else {
        assert r.wires[x].sigRS == st.wires[x].sigRS;
      }
    }
    forall x, k | x in r.wires && k in r.stores
      ensures k in r.wires[x].storesRS <==> x in r.stores[k].wires
    {
      if x == id {
        assert id !in st.stores[k].wires;
      } else {
        assert r.wires[x].storesRS == st.wires[x].storesRS;
      }
    }
  }

  /** A whole run of a wire body keeps the two-way link. */
  lemma {:induction false} RunFnKeepsLinked(st: State, w: WireId, fn: Fn)
    requires WF(st) && Linked(st) && w in st.wires && FnOk(st.signals.Keys, st.stores.Keys, fn)
    ensures Linked(RunFn(st, w, fn).0)
    decreases fn, 1, 0
  {
    match fn
    case SignalFn(s) =>
      TokenReadKeepsLinked(st, w, SignalRef(s));
      TokenReadOk(st, w, SignalRef(s));
      var (s1, v) := TokenRead(st, w, SignalRef(s));
      SetValueKeepsLinked(s1, w, v);
    case CursorFn(k, p) =>
      TokenReadKeepsLinked(st, w, CursorRef(k, p));
      TokenReadOk(st, w, CursorRef(k, p));
      var (s1, v) := TokenRead(st, w, CursorRef(k, p));
      SetValueKeepsLinked(s1, w, v);
    case Script(_, res) =>
      RunStepsKeepsLinked(st, w, fn, 0, []);
      var (s1, vals) := RunSteps(st, w, fn, 0, []);
      SetValueKeepsLinked(s1, w, ResultOf(res, vals));
  }

  lemma {:induction false} RunStepsKeepsLinked(st: State, w: WireId, fn: Fn, i: nat, vals: seq<Value>)
    requires fn.Script? && i <= |fn.steps|
    requires WF(st) && Linked(st) && w in st.wires && FnOk(st.signals.Keys, st.stores.Keys, fn)
    ensures Linked(RunSteps(st, w, fn, i, vals).0)
    decreases fn, 0, |fn.steps| - i
  {
    if i < |fn.steps| {
      match fn.steps[i]
      case Read(t) =>
        TokenReadKeepsLinked(st, w, t);
        TokenReadOk(st, w, t);
        var (s1, v) := TokenRead(st, w, t);
        RunStepsKeepsLinked(s1, w, fn, i + 1, vals + [v]);
      case SignalRead(s) =>
        LinkKeepsLinked(st, w, s);
        LinkOk(st, w, s);
        var (s1, v) := Link(st, w, s);
        RunStepsKeepsLinked(s1, w, fn, i + 1, vals + [v]);
      case Child(body, call) =>
        NewWireKeepsLinked(st, body, Some(w));
        NewWireOk(st, body, Some(w));
        var (s1, c) := NewWire(st, body, Some(w));
        if call {
          RunFnKeepsLinked(s1, c, body);
        }
        var s2 := if call then RunFn(s1, c, body).0 else s1;
        RunStepsKeepsLinked(s2, w, fn, i + 1, vals);
    }
  }

  // ---------------------------------------------------------------- framing

  /** Two records of a wire with the same body and the same links. */
  predicate SameLinks(a: WireRec, b: WireRec)
  {
    a.fn == b.fn && a.upper == b.upper && a.lower == b.lower && a.sigRS == b.sigRS
    && a.storesRS == b.storesRS
  }

  /** States that agree on every entity and every link, differing at most in state bits, run
      counters, values, tasks, signal values, store roots and the task log. */
  predicate SameGraph(st: State, r: State)
  {
    r.wires.Keys == st.wires.Keys && r.next == st.next
    && r.signals.Keys == st.signals.Keys && r.stores.Keys == st.stores.Keys
    && (forall s :: s in st.signals ==> r.signals[s].wires == st.signals[s].wires)
    && (forall k :: k in st.stores ==> r.stores[k].wires == st.stores[k].wires)
    && (forall x :: x in st.wires ==> SameLinks(r.wires[x], st.wires[x]))
  }

  /** Well-formedness and the two-way link depend on the graph alone. */
  lemma SameGraphOk(st: State, r: State)
    requires SameGraph(st, r)
    ensures WF(st) ==> WF(r)
    ensures Linked(st) ==> Linked(r)
  {
    if WF(st) {
      SameGraphWiresOk(st, r);
      assert BodiesOk(r) by {
        forall x | x in r.wires ensures FnOk(r.signals.Keys, r.stores.Keys, r.wires[x].fn) {
          assert SameLinks(r.wires[x], st.wires[x]);
        }
      }
    }
    if Linked(st) {
      forall x, t | x in r.wires && t in r.signals
        ensures t in r.wires[x].sigRS <==> x in r.signals[t].wires
      {
        assert SameLinks(r.wires[x], st.wires[x]);
      }
      forall x, k | x in r.wires && k in r.stores
        ensures k in r.wires[x].storesRS <==> x in r.stores[k].wires
      {
        assert SameLinks(r.wires[x], st.wires[x]);
      }
    }
  }

  lemma SameGraphWiresOk(st: State, r: State)
    requires SameGraph(st, r) && WiresOk(st)
    ensures WiresOk(r)
  {
    forall x | x in r.wires ensures x < r.next && WireOk(r, x) {
      assert WireOk(st, x);
    }
  }
}
