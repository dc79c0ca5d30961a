# A verified model of rocky7's reactive engine

This project models the signal/wire engine of rocky7 (`src/core/state/experimental.ts`) in Dafny and proves the properties that engine promises.

- **Signals** are value cells with an ordered set of subscribing wires.
- **Wires** are re-runnable computations. Each wire has:
  - a 3-bit state mask: `RUNNING` 0b100, `SKIP_RUN_QUEUE` 0b010, `NEEDS_RUN` 0b001;
  - a parent (`upper`) and a set of children (`lower`);
  - a run counter, a last value and post-run tasks;
  - the signals it read (`sigRS`) and, per store, the set of encoded paths it read (`storesRS`).
- **Stores** are observed object graphs with an ordered set of subscribing wires.
- **`_runWires`** is the batch runner. It first filters a copy of the batch:
  - it drops and marks paused wires;
  - it drops wires that still have an ancestor in the copy.

  It then runs the survivors, counts each run, and calls the tasks only when the result is not the previous value.
- **The store's change callback** collects every subscriber that has a recorded path matching some change record. The match cuts the changed path to the recorded length and compares the encoded strings.

The project has two layers:

1. **Pure semantics.** Each operation is a function from a `State`, a record of maps keyed by wire, signal and store ids, to the next `State`. Four modules hold them: `Engine`, `Lifecycle`, `Batch` and `Sources`. The source's promises are proved about these functions as lemmas.
2. **The engine as the source runs it.** `Graph.Graph` is a class whose fields are those maps. Its methods update the fields in place with the source's own loops and recursion. Each method is proved to leave exactly the state the pure function describes.

`Cursor` holds `encodeCursor`/`decodeCursor` and the change-matching test. `Values` holds a JSON-like value tree and path lookup.

Modelling choices:

- A JavaScript `Set` whose order the code observes is a `seq` without duplicates, in insertion order. These are the subscribers of a signal (`SignalRec.wires`), the subscribers of a store (`StoreRec.wires`) and a wire's `tasks`. `add` appends only an absent element, and `delete` removes in place. The sets whose order never matters are Dafny `set`s: a wire's `sigRS`, its `lower` and the per-store cursor sets of `storesRS`. Order is observable: `_runWires` visits the snapshot in order, and the filter's outcome depends on it (`Batch.PausedParentFirst`, `Batch.PausedParentLast`).
- Object identity becomes ids. One fresh-id counter `next` serves wires, signals and stores. A child is created after its parent, so its id is larger; this is what makes the recursions over `lower` and the walk up `upper` terminate.
- A user wire body is a script (`Engine.Fn`). It is either a signal or a cursor passed directly to `wire`, or a sequence of steps:
  - reads through the SubToken (`$(x)`);
  - tracked signal reads (`sig($)`);
  - child wires created through the factory, optionally called at once.

  The scripted result is a constant or one of the values read.
- Task calls are recorded in order in `State.calls` as `(wire, task, value)`.
- `wire.state` starts as 0. In the source it is `undefined` until its first bit operation, which may be the test `wire.state & S_SKIP_RUN_QUEUE` of `_runWires` or the `&=` of `wireResume` as well as a `|=`. Every JavaScript bit operator reads `undefined` as 0, so starting at 0 changes no outcome.
- JavaScript `===` between a wire's result and its previous value is modelled as structural equality on `Values.Value`. This differs from the source for objects and for numbers; see `Batch.ExecOneEffect` under "Left out".

## Model

| member | source | states |
|---|---|---|
| Cursor.EscapeKey | src/core/state/experimental.ts:306-307 | an escaped key never contains the separator `/`, and is empty exactly when the key is |
| Cursor.UnescapeEscape | src/core/state/experimental.ts:306-308 | unescaping an escaped key gives the key back |
| Cursor.SplitJoin | src/core/state/experimental.ts:306-308 | splitting on `/` undoes joining any non-empty list of separator-free pieces |
| Cursor.DecodeEncode | src/core/state/experimental.ts:306-308 | `decodeCursor(encodeCursor(p)) == p` for every non-empty path |
| Cursor.DecodeEncodeRoot | src/core/state/experimental.ts:306-308 | the root path and the path `[""]` both encode to the empty string, which decodes to `[""]`: the round trip fails exactly at the root |
| Cursor.EncodeInjective | src/core/state/experimental.ts:306-307 | two non-empty paths with the same encoding are equal |
| Cursor.DecodedLength | src/core/state/experimental.ts:263 | `decodeCursor(s).length` is positive and is the decoded path's length whenever decoding succeeds |
| Cursor.DecodedLengthOfEncoding | src/core/state/experimental.ts:263 | the recorded length of an encoded path is its length, or 1 for the root |
| Cursor.Take | src/core/state/experimental.ts:270 | `path.slice(0, n)` is a prefix of the path, of length `min(n, length)` |
| Cursor.HitsIffPrefix | src/core/state/experimental.ts:262-272 | for a non-empty recorded path, a change hits it iff the recorded path is a prefix of the changed path, or the change replaces the root and the recorded path is `[""]` |
| Cursor.HitsRoot | src/core/state/experimental.ts:262-272 | a wire that recorded the root cursor is hit only by a change at the root or one below a top-level key `""` |
| Cursor.AboveDoesNotHit | src/core/state/experimental.ts:265-271 | a change above the recorded path does not hit it (apart from the root collision) |
| Cursor.BesideDoesNotHit | src/core/state/experimental.ts:265-271 | a change that differs from the recorded path at a shared position does not hit it |
| Cursor.BelowHits | src/core/state/experimental.ts:265-271 | a change at or below a non-empty recorded path hits it |
| Cursor.FriendsExample | src/core/state.test.ts:56-71 | a wire that read `friends/0/id` is not hit by the insert at `friends/1`, but is hit by the update of `friends/0/id` |
| Values.LookupUndefined | src/core/state/experimental.ts:293 | looking up any path below `undefined` gives `undefined` |
| Values.LookupAppend | src/core/state/experimental.ts:293 | looking up `p + q` is looking up `q` in the value at `p` |
| Engine.Add | src/core/state/experimental.ts:227-228 | `Set.add`: the result holds exactly the old elements and the new one, and stays duplicate-free |
| Engine.LinkEffect | src/core/state/experimental.ts:221-229 | `sig($)` returns the signal's value, adds the signal to the wire's `sigRS` and the wire to the signal's subscribers, and changes nothing else |
| Engine.LinkIdempotent | src/core/state/experimental.ts:227-228 | a second `sig($)` by the same wire changes nothing |
| Engine.LinkKeepsLinked | src/core/state/experimental.ts:226-228 | `sig($)` keeps the two-way link between `sigRS` and subscriber sets |
| Engine.TrackCursorEffect | src/core/state/experimental.ts:314-333 | a cursor read returns the value at the path and stores it in `wire.value`; it adds the wire to the store's subscribers and the encoded path to `storesRS` for that store; nothing else changes |
| Engine.TrackCursorIdempotent | src/core/state/experimental.ts:320-329 | reading the same cursor twice is the same as reading it once |
| Engine.TrackCursorKeepsLinked | src/core/state/experimental.ts:322-329 | a cursor read keeps the two-way link between `storesRS` and store subscribers |
| Engine.TokenReadOk | src/core/state/experimental.ts:312-340 | a SubToken read keeps the state well formed, leaves values, bodies, bits, counters and parents alone, and sets `wire.value` to the returned value |
| Engine.TokenReadIdempotent | src/core/state/experimental.ts:312-340 | a SubToken read repeated is the same as one read |
| Engine.TokenReadKeepsLinked | src/core/state/experimental.ts:312-340 | a SubToken read keeps the two-way link |
| Engine.NewWireEffect | src/core/state/experimental.ts:100-125 | `wire(fn)` gives a fresh id with no reads, tasks or children, run 0, state 0, and the given parent; through the factory, the parent gains the child in `lower`; nothing else changes |
| Engine.NewWireOk | src/core/state/experimental.ts:100-125 | creating a wire keeps the state well formed and yields a fresh id |
| Engine.NewWireKeepsLinked | src/core/state/experimental.ts:106-119 | creating a wire keeps the two-way link |
| Engine.RunFn | src/core/state/experimental.ts:127-150 | `runWire` keeps the state well formed, leaves signal values, store roots, bits, run counters, tasks and parents alone, and leaves the result in `wire.value` |
| Engine.RunSteps | src/core/state/experimental.ts:145-148 | running a script's steps keeps the state well formed and changes only what reads and child creation may change |
| Engine.RunFnKeepsLinked | src/core/state/experimental.ts:127-150 | running a wire body keeps the two-way link |
| Lifecycle.Subtree | src/core/state/experimental.ts:153 | the wires reached through `lower` from `w` include `w`, exist, and have ids at least `w`'s |
| Lifecycle.SubtreeClosed | src/core/state/experimental.ts:153 | the subtree is closed under `lower` |
| Lifecycle.SubtreeLeast | src/core/state/experimental.ts:153 | the subtree is the least `lower`-closed set holding `w` |
| Lifecycle.SubtreeForest | src/core/state/experimental.ts:153 | the subtree of `w` is `w` together with the subtrees of its children |
| Lifecycle.Unsubscribe | src/core/state/experimental.ts:154 | deleting wires from a subscriber set keeps exactly the others, in order and without duplicates |
| Lifecycle.UnsubscribeCompose | src/core/state/experimental.ts:154 | deleting two groups one after the other is deleting their union |
| Lifecycle.PauseEffect | src/core/state/experimental.ts:167-170 | `wirePause` sets the skip bit on every wire of the subtree, keeps their other bits, and changes no other wire and no signal or store |
| Lifecycle.PauseIdempotent | src/core/state/experimental.ts:167-170 | pausing twice is pausing once |
| Lifecycle.ResumeEffect | src/core/state/experimental.ts:175-181 | `wireResume` clears the skip bit over the subtree, keeps the other bits including NEEDS_RUN, changes no other wire, and returns whether `w` has NEEDS_RUN |
| Lifecycle.ResumeAfterPause | src/core/state/experimental.ts:167-181 | resume after pause restores every wire whose skip bit was clear, and every other wire loses only the skip bit |
| Lifecycle.ResetEffect | src/core/state/experimental.ts:152-163 | `wireReset` leaves every subtree wire with exactly state NEEDS_RUN, empty `lower` and empty `sigRS`, other fields unchanged; it removes a subtree wire from a signal's subscribers exactly when that signal was in its `sigRS`; other wires, store subscriptions and `upper` are unchanged |
| Lifecycle.ResetNoLeak | src/core/state/experimental.ts:152-163 | under the two-way link, after `wireReset` no wire of the subtree is subscribed to any signal |
| Lifecycle.ResetSetKeepsLinked | src/core/state/experimental.ts:152-163 | a reset keeps the two-way link |
| Lifecycle.ResetSetCompose | src/core/state/experimental.ts:152-156 | resetting one set of wires and then another is resetting their union |
| Lifecycle.ResetSetOk | src/core/state/experimental.ts:152-163 | a reset keeps the state well formed |
| Lifecycle.ResetOne | src/core/state/experimental.ts:154-155 | unlinking `w` from the signals it read and then `_initWire(w)` is the reset of `{w}` |
| Lifecycle.PauseOk | src/core/state/experimental.ts:167-170 | `wirePause` keeps a well-formed state well formed and a linked state linked |
| Lifecycle.ResumeOk | src/core/state/experimental.ts:175-181 | `wireResume` keeps a well-formed state well formed and a linked state linked |
| Lifecycle.ResetOk | src/core/state/experimental.ts:152-156 | `wireReset` keeps a well-formed state well formed and a linked state linked |
| Batch.Delete | src/core/state/experimental.ts:191 | `toRun.delete(w)` keeps exactly the other elements, without duplicates |
| Batch.Kept | src/core/state/experimental.ts:186-199 | what the first `forEach` leaves is a duplicate-free part of the snapshot |
| Batch.KeptNotPaused | src/core/state/experimental.ts:190-193 | no wire that survives the filter had the skip bit set |
| Batch.KeptNoAncestor | src/core/state/experimental.ts:196-198 | no survivor has an ancestor among the survivors |
| Batch.TopmostKept | src/core/state/experimental.ts:196-198 | a non-paused input wire with no ancestor anywhere in the input always survives |
| Batch.KeptExact | src/core/state/experimental.ts:189-199 | when no input wire is paused, the survivors are exactly the input wires with no ancestor in the input |
| Batch.NestedExample | src/core/state.test.ts:23-42 | a parent and its child in one batch, neither paused: only the parent runs |
| Batch.PausedParentFirst | src/core/state/experimental.ts:189-199 | a paused parent visited before its child is deleted first, so the child runs |
| Batch.PausedParentLast | src/core/state/experimental.ts:189-199 | a paused parent visited after its child is still in the copy when the child is visited, so neither runs |
| Batch.PausedMissedRun | src/core/state/experimental.ts:175-193 | a paused wire in a batch is not run and stays paused, and resuming it afterwards answers that it missed a run |
| Batch.ExecOneEffect | src/core/state/experimental.ts:200-213 | one run bumps `run` by exactly 1 and leaves the result in `value`; the task log gains every task of the wire, called with the result, exactly when the result is not the previous value, and nothing otherwise |
| Batch.ExecOneOk | src/core/state/experimental.ts:200-213 | one run keeps the state well formed and the two-way link |
| Batch.ExecAllEffect | src/core/state/experimental.ts:200-213 | the second `forEach` counts exactly the wires it visits (once each) and only appends to the task log |
| Batch.RunWiresEffect | src/core/state/experimental.ts:183-214 | `_runWires` marks every paused input wire NEEDS_RUN and keeps its other bits; it changes no other state bits, counts exactly the survivors once each, appends only to the task log, and changes no signal value or store root |
| Batch.RunWiresLinked | src/core/state/experimental.ts:183-214 | `_runWires` keeps the two-way link |
| Sources.NewSignalEffect | src/core/state/experimental.ts:216-242 | `signal(val)` adds a fresh signal holding `val` with no subscribers and changes nothing else |
| Sources.NewSignalOk | src/core/state/experimental.ts:216-242 | creating a signal keeps the state well formed and linked |
| Sources.WriteSignalEffect | src/core/state/experimental.ts:230-233 | a write returns the signal's initial value; it sets the value and runs `_runWires` on the subscriber list as it was; other signal values and store roots are unchanged |
| Sources.WriteSignalLinked | src/core/state/experimental.ts:230-233 | a write keeps the two-way link |
| Sources.WriteSameValueRuns | src/core/state/experimental.ts:230-233 | writing the value a signal already holds still re-runs a subscriber that is not paused and has no ancestor among the subscribers |
| Sources.Notified | src/core/state/experimental.ts:256-275 | the callback's batch holds exactly the subscribers that some recorded path for the store and some change hit, without duplicates |
| Sources.NotifiedAppend | src/core/state/experimental.ts:259-275 | the batch of a concatenated subscriber list is the concatenation of the batches |
| Sources.NotifiedByPrefix | src/core/state/experimental.ts:259-273 | a wire that recorded a non-empty path that is a prefix of some changed path is in the batch |
| Sources.NotNotifiedOffPath | src/core/state/experimental.ts:259-273 | a wire is not in the batch when each path it recorded is non-empty, is a prefix of no changed path, and is not `[""]` facing a root replacement |
| Sources.StoreChangedEffect | src/core/state/experimental.ts:254-277 | the callback runs `_runWires` on exactly the notified subscribers; the store's root becomes the new object graph and no other root or signal value changes |
| Sources.StoreChangedLinked | src/core/state/experimental.ts:254-277 | the callback keeps the two-way link |
| Sources.NewStoreEffect | src/core/state/experimental.ts:246-285 | `store(obj)` adds a fresh store over `obj` with no subscribers and changes nothing else |
| Sources.NewStoreOk | src/core/state/experimental.ts:246-285 | creating a store keeps the state well formed and linked |
| Sources.ReifyEffect | src/core/state/experimental.ts:287-296 | `reify` returns what a tracked cursor read returns, without subscribing; after the callback it reads the new object graph |
| Sources.AddTaskEffect | src/core/state/experimental.ts:57 | callers outside this file add to `wire.tasks`; adding a post-run task puts it in the wire's task set once, at the end, and adding it again changes nothing |
| Sources.AddTaskOk | src/core/state/experimental.ts:57 | callers outside this file add to `wire.tasks`; adding a task keeps the state well formed and linked |
| Graph.Graph.NewSignal | src/core/state/experimental.ts:216-242 | `signal(val)` on the graph leaves the state `Sources.NewSignal` describes and keeps the graph valid |
| Graph.Graph.Link | src/core/state/experimental.ts:221-229 | the in-place `sigRS.add` and `wires.add` leave the state `Engine.Link` describes |
| Graph.Graph.TrackCursor | src/core/state/experimental.ts:314-333 | the in-place updates of `manager.wires` and `storesRS` leave the state `Engine.TrackCursor` describes |
| Graph.Graph.TokenRead | src/core/state/experimental.ts:312-340 | the SubToken call leaves the state `Engine.TokenRead` describes |
| Graph.Graph.NewWire | src/core/state/experimental.ts:100-125 | `wire(fn)` and the factory leave the state `Engine.NewWire` describes, keep the state well formed and keep a valid graph valid |
| Graph.Graph.RunFn | src/core/state/experimental.ts:127-150 | `runWire` on the graph leaves the state and result `Engine.RunFn` describes |
| Graph.Graph.RunSteps | src/core/state/experimental.ts:145-146 | running a script step by step gives what `Engine.RunSteps` describes |
| Graph.Graph.RunStep | src/core/state/experimental.ts:145-146 | one script step advances `Engine.RunSteps` by one position |
| Graph.Graph.Pause | src/core/state/experimental.ts:167-170 | the recursive `wirePause` leaves the state `Lifecycle.Pause` describes and keeps a valid graph valid |
| Graph.Graph.PauseLower | src/core/state/experimental.ts:168 | `wire.lower.forEach(wirePause)` sets the skip bit over the children's subtrees |
| Graph.Graph.Resume | src/core/state/experimental.ts:175-181 | the recursive `wireResume` leaves the state and answer `Lifecycle.Resume` describes and keeps a valid graph valid |
| Graph.Graph.ResumeLower | src/core/state/experimental.ts:176 | `wire.lower.forEach(wireResume)` clears the skip bit over the children's subtrees |
| Graph.Graph.Reset | src/core/state/experimental.ts:152-156 | the recursive `wireReset` leaves the state `Lifecycle.Reset` describes and keeps a valid graph valid |
| Graph.Graph.ResetLower | src/core/state/experimental.ts:153 | `wire.lower.forEach(wireReset)` resets the children's subtrees |
| Graph.Graph.Unlink | src/core/state/experimental.ts:154 | `wire.sigRS.forEach(signal => signal.wires.delete(wire))` removes the wire from exactly the signals it read |
| Graph.Graph.RunWires | src/core/state/experimental.ts:183-214 | `_runWires` on the graph leaves the state `Batch.RunWires` describes |
| Graph.Graph.Filter | src/core/state/experimental.ts:189-199 | the first `forEach` returns `Batch.Kept` and marks exactly the paused input wires NEEDS_RUN |
| Graph.Graph.Visit | src/core/state/experimental.ts:190-198 | one wire of the first `forEach` advances the filter by one position |
| Graph.Graph.HasAncestorIn | src/core/state/experimental.ts:197-198 | the `while ((curr = curr.upper))` loop answers whether some ancestor is still in `toRun` |
| Graph.Graph.RunAll | src/core/state/experimental.ts:200-213 | the second `forEach` leaves the state `Batch.ExecAll` describes |
| Graph.Graph.Exec | src/core/state/experimental.ts:201-212 | one run leaves the state `Batch.ExecOne` describes |
| Graph.Graph.CountRun | src/core/state/experimental.ts:204 | `wire.run = wire.run + 1` |
| Graph.Graph.Publish | src/core/state/experimental.ts:208-211 | the value is stored and every task is called with it, in order |
| Graph.Graph.Write | src/core/state/experimental.ts:230-233 | `sig(value)` leaves the state `Sources.WriteSignal` describes and keeps the graph valid; afterwards the signal holds the written value (so `sig()` reads it back), every other signal keeps its value, and the call returns the signal's initial value |
| Graph.Graph.AssignValue | src/core/state/experimental.ts:231 | `s.value = arg` replaces only the signal's value |
| Graph.Graph.Call | src/core/state/experimental.ts:101-105 | `w()` runs the body without reset or count, as `Engine.RunFn` describes, and keeps the graph valid |
| Graph.Graph.NewStore | src/core/state/experimental.ts:246-285 | `store(obj)` leaves the state `Sources.NewStore` describes and keeps the graph valid |
| Graph.Graph.StoreChanged | src/core/state/experimental.ts:254-277 | the change callback leaves the state `Sources.StoreChanged` describes and keeps the graph valid |
| Graph.Graph.AssignRoot | src/core/state/experimental.ts:298-304 | `produce` mutates the store's object graph in place; the model replaces the store's root by the changed graph, and nothing else changes |
| Graph.Graph.Collect | src/core/state/experimental.ts:256-275 | the loop over `manager.wires` collects exactly `Sources.Notified` |
| Graph.Graph.CollectWire | src/core/state/experimental.ts:260-273 | the loop over a subscriber's cursors adds the wire once exactly when the changes concern it |
| Graph.Graph.AnyHits | src/core/state/experimental.ts:265-271 | `changes.some(...)` is true exactly when some change hits the recorded path |
| Graph.Graph.Reify | src/core/state/experimental.ts:287-296 | `reify(cursor)` returns `Sources.Reify`, changing nothing |
| Graph.Graph.AddTask | src/core/state/experimental.ts:57 | callers outside this file add to `wire.tasks`; adding a task leaves the state `Sources.AddTask` describes and keeps the graph valid |

## Behaviour of the code worth knowing

These behaviours of the code may surprise a reader of its API; the model follows the code.

- **Writes.** A signal write always runs the subscribers; there is no equality short-circuit (`Sources.WriteSameValueRuns`). The write returns the signal's initial value, not the written one.
- **Re-runs.** `_runWires` re-runs a wire without resetting it first (`wireReset` is never called there). Old subscriptions and old children therefore survive a re-run.
- **Root cursor.** It records the empty string, which `decodeCursor` reads back as one key. A wire that read the whole store therefore re-runs only when the root is replaced, or when something below a top-level key `""` changes (`Cursor.HitsRoot`).
- **Replaced ancestors.** A change record whose path is above a recorded path does not re-run the wire, although it replaces the object the wire read through. A wire that read `friends/0/id` is not re-run when `friends` is assigned a new array: the changed path is shorter than the recorded one, so its cut is the changed path itself, which is not the recorded string (`Cursor.AboveDoesNotHit`).

## Left out

- Writes to signals from inside wire bodies or tasks, and re-entrant `_runWires`: a body only reads, links and creates children. The source has no cycle detection, so such writes may not terminate.
- Tasks are recorded, not executed: a task's own effects are not modelled.
- `produce`: it mutates the store through the object observer. The observer's change records are an input of `Graph.Graph.StoreChanged`, together with the resulting object graph, which `Graph.Graph.AssignRoot` puts in place of the old root. Aliasing between the old and the new graph is not modelled.
- `@gullerya/object-observer`, `getProxyPath`/`getProxyMeta` and the proxies of `src/utils/observer.ts` are not part of this model. A cursor is a store id with a key path. `getValueUsingPath` is `Values.Lookup`, which gives `undefined` for a missing key.
- Global counters and string ids: they are replaced by the one fresh-id counter.
- `WeakMap` garbage collection: it has no observable effect on the logic.
- The `RUNNING` bit: it is named but never set by this code.
- Any JavaScript value as a signal argument: the call's dispatch on argument shape becomes the separate methods `Peek`, `Link`, `Write` and `TokenRead`. A falsy write argument behaves like any other written value.
- Cursor.EscapeKey: escapes only `%` and `/`. `encodeURIComponent` escapes more characters, but the round-trip and injectivity facts the matching relies on hold for both.
- Cursor.DecodeCursor: decodes only `%25` and `%2F` and fails on other `%` sequences. Decoding is only ever applied to strings this encoder produced. Its length, which is all the callback uses, is the number of `/`-separated pieces (`Cursor.DecodedLength`).
- Batch.ExecOneEffect: the test `val === previousValue` of `_runWires` is structural equality of `Values.Value` trees, here and in `Batch.ExecOne`. In the source `===` compares objects by reference. An object a body reads from a store and returns again after the store mutated it in place is `===` its previous self, so the source calls no task where the model does. A freshly built object or array equal in content to the previous result is `!==` it, so the source calls the tasks where the model does not. Numbers are integers, so `NaN` is not modelled; in the source `NaN !== NaN`, so a body that returns `NaN` has its tasks called on every run.
- Graph.Graph.Exec: its test `val != prev` is the same structural equality as in `Batch.ExecOneEffect`, with the same differences from `===` for objects and numbers.
- Wire bodies that raise exceptions: the source has no error handling.
- The context files `src/stdlib/Each/index.tsx` and `src/utils/observer.ts` are not part of this model.
