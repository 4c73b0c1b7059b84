/**
 * Rings of doubly linked nodes on the heap, the shape shared by the process queues of
 * lwp/plwp.c and the queues of rx/rx_queue.h: linking a node in and linking its
 * neighbours past it change the ring as they would a sequence.
 */
module Rings {
  class Node<T> {
    var next: Node?<T>
    var prev: Node?<T>
    var item: T

    constructor (item: T)
      ensures next == null && prev == null && this.item == item
    {
      next, prev := null, null;
      this.item := item;
    }
  }

  function After(i: nat, n: nat): nat {
    if i + 1 < n then i + 1 else 0
  }

  function Before(i: nat, n: nat): int {
    if i == 0 then n - 1 else i - 1
  }

  ghost predicate Distinct<T>(r: seq<Node<T>>) {
    forall i, j :: 0 <= i < j < |r| ==> r[i] != r[j]
  }

  /** Each node points to its neighbours, the last to the first. */
  ghost predicate Linked<T>(r: seq<Node<T>>)
    reads r
  {
    forall i :: 0 <= i < |r| ==> r[i].next == r[After(i, |r|)] && r[i].prev == r[Before(i, |r|)]
  }

  ghost predicate Apart<T>(r: seq<Node<T>>, t: seq<Node<T>>) {
    forall i, j :: 0 <= i < |r| && 0 <= j < |t| ==> r[i] != t[j]
  }

  ghost function Spliced<T>(r: seq<Node<T>>, k: nat, e: Node<T>): seq<Node<T>>
    requires k <= |r|
  {
    r[..k] + [e] + r[k..]
  }

  ghost function Dropped<T>(r: seq<Node<T>>, k: nat): seq<Node<T>>
    requires k < |r|
  {
    r[..k] + r[k + 1..]
  }

  /** e is linked in after the node at k. */
  ghost predicate Joined<T>(r: seq<Node<T>>, k: nat, e: Node<T>)
    reads r, e
  {
    && k < |r| && e.prev == r[k] && e.next == r[After(k, |r|)]
    && forall i :: 0 <= i < |r| ==>
         && r[i].next == (if i == k then e else r[After(i, |r|)])
         && r[i].prev == (if i == After(k, |r|) then e else r[Before(i, |r|)])
  }

  lemma JoinedLinked<T>(r: seq<Node<T>>, k: nat, e: Node<T>)
    requires Joined(r, k, e)
    ensures Linked(Spliced(r, k + 1, e))
  {
    var t := Spliced(r, k + 1, e);
    forall i | 0 <= i < |t| ensures t[i].next == t[After(i, |t|)] && t[i].prev == t[Before(i, |t|)] {
      if i != k + 1 {
        var j := if i <= k then i else i - 1;
        assert t[i] == r[j];
        assert r[j].next == if j == k then e else r[After(j, |r|)];
      }
    }
  }

  /** All but the node at k are linked, and pass over it. */
  ghost predicate Skips<T>(r: seq<Node<T>>, k: nat)
    reads r
  {
    forall i :: 0 <= i < |r| && i != k && k < |r| ==>
      && r[i].next == r[if After(i, |r|) == k then After(k, |r|) else After(i, |r|)]
      && r[i].prev == r[if Before(i, |r|) == k then Before(k, |r|) else Before(i, |r|)]
  }

  lemma SkipsLinked<T>(r: seq<Node<T>>, k: nat)
    requires k < |r| && 1 < |r| && Skips(r, k)
    ensures Linked(Dropped(r, k))
  {
    var t, n := Dropped(r, k), |r|;
    forall i | 0 <= i < |t| ensures t[i].next == t[After(i, |t|)] && t[i].prev == t[Before(i, |t|)] {
      var j := if i < k then i else i + 1;
      assert t[i] == r[j];
      assert r[j].next == r[if After(j, n) == k then After(k, n) else After(j, n)];
    }
  }

  lemma DroppedDistinct<T>(r: seq<Node<T>>, k: nat)
    requires k < |r| && Distinct(r)
    ensures Distinct(Dropped(r, k)) && r[k] !in Dropped(r, k)
  {
  }
}
