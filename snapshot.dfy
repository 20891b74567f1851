/**
 * The snapshot of the input stores: one value per input, in declaration order.
 * A change of one input yields a fresh copy of the snapshot with that one slot
 * replaced; the snapshot already published is never written.
 */
module Snapshot {

  /** `next` is `prev` with slot `i` replaced by `v`, and nothing else changed. */
  ghost predicate ReplacedAt<V>(prev: seq<V>, next: seq<V>, i: nat, v: V) {
    && i < |prev|
    && |next| == |prev|
    && next[i] == v
    && forall j :: 0 <= j < |prev| && j != i ==> next[j] == prev[j]
  }

  /**
   * Copies the snapshot into a fresh array (the spread `[...current]`), assigns
   * the new value at `i`, and publishes the copy as a sequence.
   */
  method CopyReplacing<V>(prev: seq<V>, i: nat, v: V) returns (next: seq<V>)
    requires i < |prev|
    ensures ReplacedAt(prev, next, i, v)
  {
    var copy := new V[|prev|](j requires 0 <= j < |prev| => prev[j]);
    copy[i] := v;
    next := copy[..];
  }

  /** The replacement is determined uniquely: it is the sequence update `prev[i := v]`. */
  lemma ReplacedAtUnique<V>(prev: seq<V>, next: seq<V>, i: nat, v: V)
    requires ReplacedAt(prev, next, i, v)
    ensures next == prev[i := v]
  {
  }
}
