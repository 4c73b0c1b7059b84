/**
 * The circular doubly linked queues of rx/rx_queue.h.  A queue head is an element like any
 * other, so a queue is a ring of elements whose first is its head; the macros that insert,
 * remove and move elements change the ring as they would a sequence.
 */
module RxQueue {
  import opened Rings
  import opened RxClock

  /** What an event record of rx/rx_event.c holds beside its links. */
  datatype Record = Record(time: Clock, what: int)

  type Element = Node<Record>

  ghost predicate Ring(r: seq<Element>)
    reads r
  {
    0 < |r| && Distinct(r) && Linked(r)
  }

  method Init(q: Element)
    modifies q`next, q`prev
    ensures Ring([q])
  {
    q.next, q.prev := q, q;
  }

  lemma SplicedDistinct(r: seq<Element>, k: nat, e: Element)
    requires Distinct(r) && e !in r && k <= |r|
    ensures Distinct(Spliced(r, k, e))
  {
  }

  /** _QA with (next, prev): e goes after q. */
  method InsertAfter(q: Element, e: Element, ghost r: seq<Element>, ghost k: nat)
    requires Ring(r) && k < |r| && r[k] == q && e !in r
    modifies r`next, r`prev, e`next, e`prev
    ensures Ring(Spliced(r, k + 1, e))
  {
    assert q.next == r[After(k, |r|)];
    e.next := q.next;
    e.next.prev := e;
    e.prev := q;
    q.next := e;
    JoinedLinked(r, k, e);
    SplicedDistinct(r, k + 1, e);
  }

  /** _QA with (prev, next) at the head: e becomes the last. */
  method Append(q: Element, e: Element, ghost r: seq<Element>)
    requires Ring(r) && r[0] == q && e !in r
    modifies r`next, r`prev, e`next, e`prev
    ensures Ring(r + [e])
  {
    assert q.prev == r[Before(0, |r|)];
    e.prev := q.prev;
    e.prev.next := e;
    e.next := q;
    q.prev := e;
  }

  /** _QR: the neighbours are linked past e, which keeps its own pointers. */
  method PassOver(e: Element, ghost r: seq<Element>, ghost k: nat)
    requires Ring(r) && 0 < k < |r| && r[k] == e
    modifies r`next, r`prev
    ensures Skips(r, k)
  {
    assert e.prev == r[Before(k, |r|)] && e.next == r[After(k, |r|)];
    e.prev.next := e.next;
    e.next.prev := e.prev;
  }

  /** So the ring is what it was without e. */
  method Unlink(e: Element, ghost r: seq<Element>, ghost k: nat)
    requires Ring(r) && 0 < k < |r| && r[k] == e
    modifies r`next, r`prev
    ensures Ring(Dropped(r, k)) && e !in Dropped(r, k)
  {
    DroppedDistinct(r, k);
    PassOver(e, r, k);
    SkipsLinked(r, k);
  }

  // ------------------------------------------------ beside another queue

  lemma ApartDropped(r: seq<Element>, k: nat, t: seq<Element>)
    requires Apart(r, t) && k < |r|
    ensures Apart(Dropped(r, k), t) && r[k] !in t
  {
    var d := Dropped(r, k);
    assert forall i :: 0 <= i < |d| ==> d[i] == r[if i < k then i else i + 1];
  }

  lemma ApartSpliced(r: seq<Element>, k: nat, e: Element, t: seq<Element>)
    requires Apart(r, t) && k <= |r| && e !in t
    ensures Apart(Spliced(r, k, e), t)
  {
  }

  lemma ApartAppended(r: seq<Element>, t: seq<Element>, e: Element)
    requires Apart(r, t) && e !in r
    ensures Apart(r, t + [e])
  {
  }

  method UnlinkBeside(e: Element, ghost r: seq<Element>, ghost k: nat, ghost t: seq<Element>)
    requires Ring(r) && 0 < k < |r| && r[k] == e && Ring(t) && Apart(r, t)
    modifies r`next, r`prev
    ensures Ring(Dropped(r, k)) && Ring(t) && Apart(Dropped(r, k), t)
    ensures e !in Dropped(r, k) && e !in t
  {
    ApartDropped(r, k, t);
    Unlink(e, r, k);
  }

  method InsertBeside(q: Element, e: Element, ghost r: seq<Element>, ghost k: nat, ghost t: seq<Element>)
    requires Ring(r) && k < |r| && r[k] == q && e !in r && Ring(t) && Apart(r, t) && e !in t
    modifies r`next, r`prev, e`next, e`prev
    ensures Ring(Spliced(r, k + 1, e)) && Ring(t) && Apart(Spliced(r, k + 1, e), t)
  {
    ApartSpliced(r, k + 1, e, t);
    InsertAfter(q, e, r, k);
  }

  method AppendBeside(q: Element, e: Element, ghost r: seq<Element>, ghost t: seq<Element>)
    requires Ring(r) && Ring(t) && Apart(r, t) && t[0] == q && e !in r && e !in t
    modifies t`next, t`prev, e`next, e`prev
    ensures Ring(r) && Ring(t + [e]) && Apart(r, t + [e])
  {
    ApartAppended(r, t, e);
    Append(q, e, t);
  }

  /** queue_MoveAppend: from ring r to the end of ring t. */
  method MoveAppend(q: Element, e: Element, ghost r: seq<Element>, ghost k: nat, ghost t: seq<Element>)
    requires Ring(r) && 0 < k < |r| && r[k] == e && Ring(t) && t[0] == q && Apart(r, t)
    modifies r`next, r`prev, t`next, t`prev
    ensures Ring(Dropped(r, k)) && Ring(t + [e]) && Apart(Dropped(r, k), t + [e])
  {
    UnlinkBeside(e, r, k, t);
    AppendBeside(q, e, Dropped(r, k), t);
  }
}
