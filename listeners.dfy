/**
 * The listener registry of the derived store: an insertion-ordered collection
 * without duplicates (a JavaScript `Set`), and the fan-out of one notification
 * to every registered listener.
 */
module Listeners {

  /** No listener id occurs twice. */
  ghost predicate NoDup<L>(ls: seq<L>) {
    forall i, j :: 0 <= i < j < |ls| ==> ls[i] != ls[j]
  }

  /**
   * `new Set([...ls, l])`: the listeners of `ls` in their order, then `l` unless
   * it is already present (a present listener keeps its original position).
   */
  function Added<L(==,!new)>(ls: seq<L>, l: L): (r: seq<L>)
    ensures ls <= r
    ensures l in r
    ensures forall x :: x in r <==> x in ls || x == l
    ensures l in ls ==> r == ls
    ensures NoDup(ls) ==> NoDup(r)
  {
    if l in ls then ls else ls + [l]
  }

  /** `Set.delete(l)`: every listener other than `l`, in the order they were added. */
  function Removed<L(==,!new)>(ls: seq<L>, l: L): (r: seq<L>)
    ensures |r| <= |ls|
    ensures forall x :: x in r <==> x in ls && x != l
  {
    if ls == [] then []
    else (if ls[0] == l then [] else [ls[0]]) + Removed(ls[1..], l)
  }

  /** Removal keeps the collection free of duplicates. */
  lemma {:induction false} RemovedNoDup<L(!new)>(ls: seq<L>, l: L)
    requires NoDup(ls)
    ensures NoDup(Removed(ls, l))
  {
    if ls != [] {
      assert NoDup(ls[1..]) by {
        forall i, j | 0 <= i < j < |ls[1..]| ensures ls[1..][i] != ls[1..][j] {
          assert ls[1..][i] == ls[i + 1] && ls[1..][j] == ls[j + 1];
        }
      }
      RemovedNoDup(ls[1..], l);
      var rest := Removed(ls[1..], l);
      if ls[0] != l {
        assert ls[0] !in ls[1..] by {
          forall k | 0 <= k < |ls[1..]| ensures ls[1..][k] != ls[0] {
            assert ls[1..][k] == ls[k + 1];
          }
        }
        assert ls[0] !in rest;
        var r := [ls[0]] + rest;
        forall i, j | 0 <= i < j < |r| ensures r[i] != r[j] {
          assert r[j] == rest[j - 1];
          if i > 0 {
            assert r[i] == rest[i - 1];
          }
        }
      }
    }
  }

  /** Removing a listener that is not registered changes nothing. */
  lemma {:induction false} RemovedAbsent<L(!new)>(ls: seq<L>, l: L)
    requires l !in ls
    ensures Removed(ls, l) == ls
  {
    if ls != [] {
      assert l !in ls[1..];
      RemovedAbsent(ls[1..], l);
      assert [ls[0]] + ls[1..] == ls;
    }
  }

  /**
   * Removing the listener at position `k` of a duplicate-free registry removes
   * exactly that position and keeps the relative order of all the others.
   */
  lemma {:induction false} RemovedAtIndex<L(!new)>(ls: seq<L>, l: L, k: nat)
    requires NoDup(ls)
    requires k < |ls| && ls[k] == l
    ensures Removed(ls, l) == ls[..k] + ls[k + 1..]
  {
    assert NoDup(ls[1..]) by {
      forall i, j | 0 <= i < j < |ls[1..]| ensures ls[1..][i] != ls[1..][j] {
        assert ls[1..][i] == ls[i + 1] && ls[1..][j] == ls[j + 1];
      }
    }
    if k == 0 {
      assert l !in ls[1..] by {
        forall m | 0 <= m < |ls[1..]| ensures ls[1..][m] != l {
          assert ls[1..][m] == ls[m + 1];
        }
      }
      RemovedAbsent(ls[1..], l);
    } else {
      assert ls[0] != l;
      RemovedAtIndex(ls[1..], l, k - 1);
      assert ls[1..][..k - 1] == ls[1..k];
      assert ls[1..][k..] == ls[k + 1..];
      assert [ls[0]] + ls[1..k] == ls[..k];
    }
  }

  /** Subscribing a new listener and then unsubscribing it restores the registry. */
  lemma {:induction false} RemovedAfterAdded<L(!new)>(ls: seq<L>, l: L)
    requires l !in ls
    ensures Removed(Added(ls, l), l) == ls
  {
    if ls == [] {
      assert Added(ls, l) == [l];
      assert Removed([l], l) == [] + Removed([], l);
    } else {
      var t := ls[1..];
      assert l !in t;
      RemovedAfterAdded(t, l);
      assert Added(ls, l) == ls + [l];
      assert (ls + [l])[0] == ls[0] && (ls + [l])[1..] == t + [l];
      assert Added(t, l) == t + [l];
      assert [ls[0]] + t == ls;
    }
  }

  /** One listener invocation: the listener id and the two arguments it is called with. */
  datatype Notification<L, T> = Notification(listener: L, state: T, prevState: T)

  /**
   * The invocations made by `listeners.forEach(l => l(state, prev))`: one per
   * registered listener, in registration order, all with the same arguments.
   */
  function Fanout<L, T>(ls: seq<L>, state: T, prev: T): (r: seq<Notification<L, T>>)
    ensures |r| == |ls|
    ensures forall k :: 0 <= k < |ls| ==> r[k] == Notification(ls[k], state, prev)
  {
    if ls == [] then []
    else Fanout(ls[..|ls| - 1], state, prev) + [Notification(ls[|ls| - 1], state, prev)]
  }

  /** Fanning out over a registry with a listener removed reaches exactly the other listeners, and never the removed one. */
  lemma FanoutAfterRemoved<L(!new), T>(ls: seq<L>, l: L, x: L, state: T, prev: T)
    ensures Notification(x, state, prev) in Fanout(Removed(ls, l), state, prev) <==> x in ls && x != l
  {
  }

  /** In a duplicate-free registry every listener is notified exactly once. */
  lemma FanoutExactlyOnce<L(!new), T>(ls: seq<L>, state: T, prev: T, i: nat, j: nat)
    requires NoDup(ls)
    requires i < |ls| && j < |ls|
    requires Fanout(ls, state, prev)[i].listener == Fanout(ls, state, prev)[j].listener
    ensures i == j
  {
  }
}
