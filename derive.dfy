/**
 * `derive(stores, onChange)`: a store whose state is computed from several
 * input stores and recomputed, then published to its listeners, whenever one
 * of the inputs changes.
 *
 * The internal record kept in a second store is the mutable state of class
 * `DerivedStore`. The input stores are outside this model: their current
 * values are passed to the constructor, and a change notification from input
 * `index` is the call `OnInputChange(index, value)`. Listeners are abstract ids
 * of type `L`; invoking one appends a `Notification` to `delivered`.
 */
module Derive {
  import opened Wrappers
  import opened Snapshot
  import opened Listeners

  /** The error thrown by the derived store's `setState`. */
  const SetStateUnavailable: string := "setState is not available in derived store"

  /** The handle returned by `subscribe`: calling it unsubscribes `listener`. */
  datatype Handle<L> = Handle(listener: L)

  /**
   * The value a listener receives as its previous state: `prev ?? state`. It
   * exists because zustand listeners expect a previous state that is not
   * null: whenever the new state is not nullish, neither is this value.
   */
  function ListenerPrev<T>(state: T, prev: T, isNullish: T -> bool): (r: T)
    ensures !isNullish(state) ==> !isNullish(r)
    ensures !isNullish(prev) ==> r == prev
    ensures isNullish(prev) ==> r == state
  {
    if isNullish(prev) then state else prev
  }

  class DerivedStore<V, T, L(==,!new)> {
    /** `onChange(depsState, prevDepsState, prevState)`, taken to be total. */
    const combine: (seq<V>, Option<seq<V>>, Option<T>) -> T
    /** Which values of `T` JavaScript's `??` treats as absent (`null`, `undefined`). */
    const isNullish: T -> bool
    /** The number of input stores, fixed for the store's lifetime. */
    const arity: nat

    /** Listeners of the derived store, in insertion order. */
    var listeners: seq<L>
    /** The current values of the input stores. */
    var depsState: seq<V>
    /** The snapshot before the last change, `null` before the first change. */
    var prevDepsState: Option<seq<V>>
    /** The derived state. */
    var state: T
    /** The derived state before the last change, `null` before the first change. */
    var prevState: Option<T>
    /** `depsSubs`: whether the subscription to input `i` is still in place. */
    var inputSubs: seq<bool>
    /** Every listener invocation made so far, oldest first. */
    var delivered: seq<Notification<L, T>>

    /**
     * The record's invariant: the snapshot has one slot per input, the
     * previous snapshot and previous state are present together and the
     * previous snapshot has the same length, the listeners are distinct, and
     * `state` is the result of the most recent call of `combine`.
     */
    ghost predicate Valid()
      reads this
    {
      && |depsState| == arity
      && |inputSubs| == arity
      && (prevDepsState.Some? ==> |prevDepsState.value| == arity)
      && (prevDepsState.Some? <==> prevState.Some?)
      && NoDup(listeners)
      && state == combine(depsState, prevDepsState, prevState)
    }

    /**
     * Creation: the initial snapshot is the inputs' values in declaration order,
     * the state is `onChange(initial, null, null)`, nothing is previous, there are
     * no listeners, and every input is subscribed to.
     */
    constructor (inputs: seq<V>, combine: (seq<V>, Option<seq<V>>, Option<T>) -> T, isNullish: T -> bool)
      ensures Valid()
      ensures this.combine == combine && this.isNullish == isNullish
      ensures arity == |inputs|
      ensures depsState == inputs
      ensures state == combine(inputs, None, None)
      ensures prevDepsState == None && prevState == None
      ensures listeners == [] && delivered == []
      ensures inputSubs == seq(|inputs|, _ => true)
    {
      this.combine := combine;
      this.isNullish := isNullish;
      arity := |inputs|;
      listeners := [];
      depsState := inputs;
      prevDepsState := None;
      state := combine(inputs, None, None);
      prevState := None;
      inputSubs := seq(|inputs|, _ => true);
      delivered := [];
    }

    /** `getState`: the derived state, reading nothing else and changing nothing. */
    method GetState() returns (s: T)
      ensures s == state
    {
      s := state;
    }

    /** `setState` on a derived store always throws, whatever it is given. */
    method SetState<P>(partial: P) returns (r: Outcome)
      ensures r == Fail(SetStateUnavailable)
    {
      r := Fail(SetStateUnavailable);
    }

    /** Calls every registered listener once, in insertion order, with `(s, prev)`. */
    method Notify(s: T, prev: T)
      modifies this
      ensures delivered == old(delivered) + Fanout(listeners, s, prev)
      ensures listeners == old(listeners) && depsState == old(depsState)
      ensures prevDepsState == old(prevDepsState) && state == old(state)
      ensures prevState == old(prevState) && inputSubs == old(inputSubs)
    {
      var i := 0;
      while i < |listeners|
        invariant 0 <= i <= |listeners|
        invariant delivered == old(delivered) + Fanout(listeners[..i], s, prev)
        invariant listeners == old(listeners) && depsState == old(depsState)
        invariant prevDepsState == old(prevDepsState) && state == old(state)
        invariant prevState == old(prevState) && inputSubs == old(inputSubs)
      {
        assert listeners[..i + 1][..i] == listeners[..i];
        delivered := delivered + [Notification(listeners[i], s, prev)];
        i := i + 1;
      }
      assert listeners[..i] == listeners;
    }

    /**
     * The subscription callback of input `index` receiving `value`. While that
     * subscription is in place: the snapshot is copied with slot `index`
     * replaced, `combine` is called on (new snapshot, old snapshot, old state),
     * the four fields are committed together, and the listeners are notified
     * with `(new state, old state ?? new state)`. Once the subscription is
     * released by `Destroy`, the input no longer reaches the derived store.
     */
    method OnInputChange(index: nat, value: V)
      requires Valid()
      requires index < arity
      modifies this
      ensures Valid()
      ensures listeners == old(listeners) && inputSubs == old(inputSubs)
      ensures old(inputSubs[index]) ==>
        && ReplacedAt(old(depsState), depsState, index, value)
        && depsState == old(depsState)[index := value]
        && prevDepsState == Some(old(depsState))
        && prevState == Some(old(state))
        && state == combine(depsState, Some(old(depsState)), Some(old(state)))
        && delivered == old(delivered) + Fanout(listeners, state, ListenerPrev(state, old(state), isNullish))
      ensures !old(inputSubs[index]) ==>
        && depsState == old(depsState) && prevDepsState == old(prevDepsState)
        && state == old(state) && prevState == old(prevState)
        && delivered == old(delivered)
    {
      if inputSubs[index] {
        var current := depsState;
        var next := CopyReplacing(current, index, value);
        ReplacedAtUnique(current, next, index, value);
        var prev := state;
        var s := combine(next, Some(current), Some(prev));
        prevDepsState, depsState, prevState, state := Some(current), next, Some(prev), s;
        Notify(s, ListenerPrev(s, prev, isNullish));
      }
    }

    /**
     * `subscribe(listener)`: appends the listener unless it is registered
     * already, and returns the handle that unsubscribes it.
     */
    method Subscribe(l: L) returns (h: Handle<L>)
      requires Valid()
      modifies this
      ensures Valid()
      ensures h.listener == l
      ensures listeners == Added(old(listeners), l)
      ensures depsState == old(depsState) && prevDepsState == old(prevDepsState)
      ensures state == old(state) && prevState == old(prevState)
      ensures inputSubs == old(inputSubs) && delivered == old(delivered)
    {
      listeners := Added(listeners, l);
      h := Handle(l);
    }

    /** Calling an unsubscribe handle: deletes exactly its listener from the registry. */
    method Unsubscribe(h: Handle<L>)
      requires Valid()
      modifies this
      ensures Valid()
      ensures listeners == Removed(old(listeners), h.listener)
      ensures depsState == old(depsState) && prevDepsState == old(prevDepsState)
      ensures state == old(state) && prevState == old(prevState)
      ensures inputSubs == old(inputSubs) && delivered == old(delivered)
    {
      RemovedNoDup(listeners, h.listener);
      listeners := Removed(listeners, h.listener);
    }

    /**
     * `destroy`: releases the subscription to every input store, one after the
     * other. The derived store's own listeners stay registered.
     */
    method Destroy()
      requires Valid()
      modifies this
      ensures Valid()
      ensures |inputSubs| == arity && forall i :: 0 <= i < arity ==> !inputSubs[i]
      ensures listeners == old(listeners)
      ensures depsState == old(depsState) && prevDepsState == old(prevDepsState)
      ensures state == old(state) && prevState == old(prevState)
      ensures delivered == old(delivered)
    {
      for i := 0 to |inputSubs|
        invariant Valid()
        invariant forall j :: 0 <= j < i ==> !inputSubs[j]
        invariant listeners == old(listeners)
        invariant depsState == old(depsState) && prevDepsState == old(prevDepsState)
        invariant state == old(state) && prevState == old(prevState)
        invariant delivered == old(delivered)
      {
        inputSubs := inputSubs[i := false];
      }
    }
  }

  /** The sum of a snapshot of numbers. */
  function Sum(s: seq<int>): (r: int) {
    if s == [] then 0 else s[0] + Sum(s[1..])
  }

  lemma SumOfPair(s: seq<int>)
    requires |s| == 2
    ensures Sum(s) == s[0] + s[1]
  {
    assert s[1..][1..] == [];
    assert Sum(s[1..]) == s[1] + Sum(s[1..][1..]);
  }

  /** `onChange` of the scenario: the sum of the current snapshot. */
  function SumOfInputs(s: seq<int>, prevDeps: Option<seq<int>>, prev: Option<int>): (r: int) {
    Sum(s)
  }

  function NeverNullish(x: int): (r: bool) { false }

  lemma FanoutSingle(l: nat, s: int, p: int)
    ensures Fanout([l], s, p) == [Notification(l, s, p)]
  {
  }

  /**
   * Two numeric inputs A = 1 and B = 2 combined by their sum, and one listener
   * `0` subscribed: the derived state starts at 3.
   */
  method SumScenarioStart() returns (d: DerivedStore<int, int, nat>, initial: int)
    ensures fresh(d) && d.Valid()
    ensures d.combine == SumOfInputs && d.isNullish == NeverNullish && d.arity == 2
    ensures d.depsState == [1, 2] && initial == 3 && d.state == 3
    ensures d.inputSubs[0] && d.inputSubs[1]
    ensures d.listeners == [0] && d.delivered == []
  {
    d := new DerivedStore<int, int, nat>([1, 2], SumOfInputs, NeverNullish);
    SumOfPair([1, 2]);
    initial := d.GetState();
    var _ := d.Subscribe(0);
  }

  /**
   * From the start above, A := 5 gives 7 and the listener is called with
   * (7, 3); then B := 10 gives 15 and the listener is called with (15, 7).
   */
  method SumScenario() returns (d: DerivedStore<int, int, nat>, afterA: int, afterB: int)
    ensures fresh(d) && d.Valid() && d.arity == 2
    ensures afterA == 7 && afterB == 15 && d.state == 15
    ensures |d.delivered| == 2
    ensures d.delivered[0] == Notification(0, 7, 3) && d.delivered[1] == Notification(0, 15, 7)
  {
    var initial;
    d, initial := SumScenarioStart();

    d.OnInputChange(0, 5);
    SumOfPair(d.depsState);
    afterA := d.GetState();
    assert d.depsState[0] == 5 && d.depsState[1] == 2;
    assert afterA == 7;
    FanoutSingle(0, 7, 3);
    assert d.delivered[0] == Notification(0, 7, 3);

    d.OnInputChange(1, 10);
    SumOfPair(d.depsState);
    afterB := d.GetState();
    assert d.depsState[0] == 5 && d.depsState[1] == 10;
    assert afterB == 15;
    FanoutSingle(0, 15, 7);
  }

  /**
   * The same store destroyed after the two changes: A := 100 reaches it no
   * more, so the derived state stays 15 and the listener is not called again.
   */
  method SumScenarioDestroyed() returns (afterDestroy: int, log: seq<Notification<nat, int>>)
    ensures afterDestroy == 15
    ensures |log| == 2 && log[0] == Notification(0, 7, 3) && log[1] == Notification(0, 15, 7)
  {
    var d, _, _ := SumScenario();
    d.Destroy();
    d.OnInputChange(0, 100);
    afterDestroy := d.GetState();
    log := d.delivered;
  }
}
