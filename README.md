# derive-zustand in Dafny

A model of `derive(stores, onChange)` from `src/index.ts`: it builds a
zustand-shaped store whose state is computed from several input stores. On
creation the inputs' current values form the initial snapshot and
`onChange(snapshot, null, null)` gives the initial derived state. Each change
of an input copies the snapshot with that input's slot replaced, calls
`onChange(new snapshot, old snapshot, old state)`, commits the four fields of
the internal record together and then calls every listener of the derived
store in insertion order. The derived store's `setState` always throws, and
`destroy` releases the subscriptions to the inputs.

Layout:

- `wrappers.dfy` (`Wrappers`): `Option` for JavaScript's `T | null`, and
  `Outcome` for an operation that may throw.
- `snapshot.dfy` (`Snapshot`): the copy-then-assign of the snapshot array.
- `listeners.dfy` (`Listeners`): the listener `Set` as an insertion-ordered,
  duplicate-free sequence of listener ids. It holds the add and delete
  operations, and `Fanout`, the list of calls a `forEach` over the set makes.
- `derive.dfy` (`Derive`): class `DerivedStore`. Its fields are the internal
  record: `listeners`, `depsState`, `prevDepsState`, `state`, `prevState`, and
  `inputSubs` for `depsSubs`. A log `delivered` records every listener call.
  The module ends with the two-input sum example written as verified client methods.

`DerivedStore.Valid()` is the invariant every operation keeps:

- the snapshot has one slot per input;
- the previous snapshot and the previous state are both absent (before the
  first change) or both present;
- no listener is registered twice;
- `state == combine(depsState, prevDepsState, prevState)`, so the state is
  always the result of the latest `onChange` call.

Two details of the code:

- At creation the record holds `prevState: null` (line 78); the previous state
  is present only from the first change on.
- Listeners receive `prevState ?? newState` (line 111): the new state replaces
  the old one whenever the old one is nullish, not only before the first
  change. The model takes a predicate `isNullish` on derived states for that
  test.

## Model

| member | source | states |
|---|---|---|
| `Snapshot.CopyReplacing` | src/index.ts:93-95 | the new snapshot has the old length, holds the new value at the changed index, and equals the old snapshot at every other index |
| `Snapshot.ReplacedAtUnique` | src/index.ts:93-95 | that description fixes the new snapshot uniquely: it is `prev[i := v]` |
| `Listeners.Added` | src/index.ts:122 | subscribing keeps the old listeners as a prefix in their order, makes the new listener a member, adds no other member, leaves an already-present listener where it was, and keeps the set free of duplicates |
| `Listeners.Removed` | src/index.ts:129-130 | deleting a listener leaves exactly the other listeners as members and never grows the collection |
| `Listeners.RemovedNoDup` | src/index.ts:130 | deleting keeps the collection duplicate-free |
| `Listeners.RemovedAbsent` | src/index.ts:130 | deleting a listener that is not registered changes nothing |
| `Listeners.RemovedAtIndex` | src/index.ts:128-134 | in a duplicate-free collection, deleting the listener at position k drops exactly position k and keeps the others in their relative order |
| `Listeners.RemovedAfterAdded` | src/index.ts:121-134 | subscribing a new listener and then calling its unsubscribe handle restores the previous collection |
| `Listeners.Fanout` | src/index.ts:108-113 | a notification pass makes one call per registered listener, in insertion order, each with the same two arguments |
| `Listeners.FanoutAfterRemoved` | src/index.ts:108-113 | once a listener is unsubscribed, a notification pass reaches exactly the registered listeners other than it, and never the removed one |
| `Listeners.FanoutExactlyOnce` | src/index.ts:108-113 | since listeners are distinct, no listener is called twice in one pass |
| `Derive.ListenerPrev` | src/index.ts:111 | the previous state handed to listeners is never nullish when the new state is not (the non-null previous state zustand listeners expect); it is the old state unless that is nullish, then the new state |
| `Derive.DerivedStore.constructor` | src/index.ts:45-80 | the snapshot is the inputs' values in declaration order, with one slot per input; the state is `onChange(snapshot, null, null)`; previous snapshot and previous state are null; there are no listeners; every input is subscribed |
| `Derive.DerivedStore.GetState` | src/index.ts:120 | `getState` returns the current derived state and changes nothing |
| `Derive.DerivedStore.SetState` | src/index.ts:136-138 | `setState` fails with "setState is not available in derived store" for any argument, in any state |
| `Derive.DerivedStore.Notify` | src/index.ts:108-113 | appends exactly `Fanout(listeners, state, prev)` to the log and changes no field of the record |
| `Derive.DerivedStore.OnInputChange` | src/index.ts:83-114 | while input `index` is subscribed: the snapshot is replaced at `index` only; the previous snapshot is the old snapshot; the previous state is the old state; the state is `onChange(new, old, old state)`, recombined on every change; every listener is called once in order with `(new state, old state ?? new state)`. Once the input is released, nothing changes. The listeners are never altered |
| `Derive.DerivedStore.Subscribe` | src/index.ts:121-127 | the listener collection becomes `Added(old, l)`; no other field changes; the returned handle unsubscribes `l` |
| `Derive.DerivedStore.Unsubscribe` | src/index.ts:128-134 | the listener collection becomes `Removed(old, l)`; snapshot, state and log are untouched |
| `Derive.DerivedStore.Destroy` | src/index.ts:140-142 | every input subscription is released; listeners, snapshot, state and log are untouched |
| `Derive.SumScenarioStart` | src/index.ts:45-126 | inputs 1 and 2 combined by their sum give a derived state of 3 |
| `Derive.SumScenario` | src/index.ts:83-113 | after A := 5 the state is 7 and the listener gets (7, 3); after B := 10 the state is 15 and the listener gets (15, 7) |
| `Derive.SumScenarioDestroyed` | src/index.ts:140-142 | after `destroy`, A := 100 leaves the state at 15 and triggers no further listener call |

## Left out

- The zustand primitive (`create`, `StoreApi`, its `setState` merge and its listener machinery) is not modelled. The internal store is the fields of `DerivedStore`, and each `store.setState({...})` is an assignment to the named fields.
- The type-level helpers `ExtractType` and `UnwrapStoreApi` have no runtime behaviour.
- The input stores are outside the model. Their values at creation are the constructor's `inputs`. A change notification from input `index` is a call `OnInputChange(index, value)`. The input's own previous value, which the callback receives and ignores, is not passed.
- `onChange` is a total function, so exceptions it throws are not modelled. In the code the commit (line 101) only happens after `onChange` returns (line 99), and the model commits only after `combine` has produced its value.
- Derive.DerivedStore.OnInputChange: passes `Some(old state)` to `onChange` after a change. JavaScript cannot tell a nullish old state apart from "no previous state" there.
- Re-entrancy is not modelled: an `onChange` or a listener that writes back into an input store, or that unsubscribes during the `forEach` at line 108.
- `depsSubs` is stored only after all inputs are subscribed (line 117). The model starts with every input subscribed, because nothing can intervene between those lines.
- Derive.DerivedStore.Destroy: a second call is accepted and changes nothing, which assumes that the input stores' unsubscribe functions are idempotent. Those functions are not visible here; the model does not capture an input store whose unsubscribe misbehaves when called twice.
- Listeners are abstract ids of type `L`, not JavaScript functions. Function identity is id equality, and invoking a listener means appending a `Notification` to `delivered`.
