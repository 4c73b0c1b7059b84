/**
 * The event queue of rx/rx_event.c on its linked lists: posting by backward scan, cancelling,
 * and the turn of the firing loop that takes the first event when it is due.
 */
module RxEventQueue {
  import opened RxClock
  import opened RxQueue
  import opened Rings
  import RxEvent

  function Micros(q: seq<Element>): (ts: seq<int>)
    reads q
    ensures |ts| == |q| && forall i :: 0 <= i < |q| ==> ts[i] == q[i].item.time.Micros()
  {
    seq(|q|, i requires 0 <= i < |q| reads q => q[i].item.time.Micros())
  }

  predicate NonDecreasing(ts: seq<int>) {
    forall i, j :: 0 <= i < j < |ts| ==> ts[i] <= ts[j]
  }

  ghost predicate Sorted(q: seq<Element>)
    reads q
  {
    (forall i :: 0 <= i < |q| ==> q[i].item.time.Normal()) && NonDecreasing(Micros(q))
  }

  lemma StillSorted(ts: seq<int>, when: int)
    requires NonDecreasing(ts)
    ensures var k := RxEvent.Place(ts, when); NonDecreasing(ts[..k] + [when] + ts[k..])
  {
    var k := RxEvent.Place(ts, when);
    assert forall i :: 0 <= i < k ==> ts[i] <= when;
  }

  lemma PlaceIs(ts: seq<int>, when: int, k: nat)
    requires k <= |ts| && (0 < k ==> ts[k - 1] <= when) && forall i :: k <= i < |ts| ==> when < ts[i]
    ensures RxEvent.Place(ts, when) == k
  {
  }

  lemma MicrosSplice(q: seq<Element>, k: nat, e: Element)
    requires k <= |q|
    ensures Micros(Spliced(q, k, e)) == Micros(q)[..k] + [e.item.time.Micros()] + Micros(q)[k..]
  {
  }

  lemma HeadAndDropped(h: Element, q: seq<Element>, k: nat)
    requires k < |q|
    ensures ([h] + q)[k + 1] == q[k] && Dropped([h] + q, k + 1) == [h] + Dropped(q, k)
  {
  }

  lemma HeadAndSpliced(h: Element, q: seq<Element>, k: nat, e: Element)
    requires k <= |q|
    ensures Spliced([h] + q, k + 1, e) == [h] + Spliced(q, k, e)
  {
  }

  lemma ApartSwap(r: seq<Element>, t: seq<Element>)
    requires Apart(r, t)
    ensures Apart(t, r)
  {
  }

  /** Relinking does not change the times. */
  twostate lemma SameTimes(q: seq<Element>)
    requires forall i :: 0 <= i < |q| ==> q[i].item.time == old(q[i].item.time)
    ensures Micros(q) == old(Micros(q)) && (old(Sorted(q)) ==> Sorted(q))
  {
  }

  class EventQueue {
    const head: Element
    const freeHead: Element
    const allocUnit: nat
    var nFree: nat
    var nPosted: nat
    ghost var queue: seq<Element>
    ghost var free: seq<Element>

    /** The two lists are rings without a common element, and counted. */
    ghost predicate Rings()
      reads this, head, freeHead, queue, free
    {
      && 0 < allocUnit
      && Ring([head] + queue) && Ring([freeHead] + free) && Apart([head] + queue, [freeHead] + free)
      && nPosted == |queue| && nFree == |free|
    }

    ghost predicate Valid()
      reads this, head, freeHead, queue, free
    {
      Rings() && Sorted(queue)
    }

    constructor (nEvents: nat)
      ensures Valid() && queue == [] && free == []
      ensures allocUnit == if nEvents == 0 then 10 else nEvents
    {
      allocUnit := if nEvents == 0 then 10 else nEvents;
      var h := new Node<Record>(Record(Clock(0, 0), 0));
      Init(h);
      var f := new Node<Record>(Record(Clock(0, 0), 0));
      Init(f);
      head, freeHead := h, f;
      nFree, nPosted, queue, free := 0, 0, [], [];
      new;
      assert [head] + queue == [h] && [freeHead] + free == [f];
    }

    /** queue_Append to the free list and the count. */
    method AddFree(e: Element)
      requires Rings() && e !in [head] + queue && e !in [freeHead] + free
      modifies this`nFree, this`free, freeHead`next, freeHead`prev, free`next, free`prev, e`next, e`prev
      ensures Rings() && free == old(free) + [e]
    {
      AppendBeside(freeHead, e, [head] + queue, [freeHead] + free);
      assert [freeHead] + free + [e] == [freeHead] + (free + [e]);
      free := free + [e];
      nFree := nFree + 1;
    }

    /** A block of new records for the free list. */
    method Allocate()
      requires Rings() && free == []
      modifies this`nFree, this`free, freeHead`next, freeHead`prev
      ensures Rings() && |free| == allocUnit && fresh(free)
    {
      var i := 0;
      while i < allocUnit
        invariant Rings() && |free| == i <= allocUnit && fresh(free)
      {
        var e := new Node<Record>(Record(Clock(0, 0), 0));
        AddFree(e);
        i := i + 1;
      }
    }

    /** The first free record, taken off its list. */
    method TakeFree() returns (e: Element)
      requires Rings() && free != []
      modifies this`nFree, this`free, freeHead`next, freeHead`prev, free`next, free`prev
      ensures Rings() && [e] + free == old(free)
      ensures e !in [head] + queue && e !in [freeHead] + free
    {
      ghost var r := [freeHead] + free;
      assert r[0].next == r[After(0, |r|)];
      e := freeHead.next;
      ApartSwap([head] + queue, r);
      UnlinkBeside(e, r, 1, [head] + queue);
      assert Dropped(r, 1) == [freeHead] + free[1..];
      ApartSwap(Dropped(r, 1), [head] + queue);
      free := free[1..];
      nFree := nFree - 1;
    }

    /** A record, from a new block when the free list is empty. */
    method Grab() returns (e: Element)
      requires Rings()
      modifies this`nFree, this`free, freeHead`next, freeHead`prev, free`next, free`prev
      ensures Rings() && e !in [head] + queue && e !in [freeHead] + free
      ensures fresh(e) || e in old(free)
      ensures nFree + 1 == old(nFree) + if old(nFree) == 0 then allocUnit else 0
    {
      assert ([freeHead] + free)[0].next == ([freeHead] + free)[After(0, |free| + 1)];
      if freeHead.next == freeHead {
        Allocate();
      }
      ghost var f := free;
      e := TakeFree();
      assert e == f[0];
    }

    /** The backward scan: the element after which an event for this time belongs. */
    method FindSlot(when: Clock) returns (qe: Element, ghost k: nat)
      requires Valid() && when.Normal()
      ensures k == RxEvent.Place(Micros(queue), when.Micros()) && qe == ([head] + queue)[k]
      ensures qe == head <==> k == 0
    {
      ghost var r, ts := [head] + queue, Micros(queue);
      assert r[0].prev == r[Before(0, |r|)];
      qe, k := head.prev, |queue|;
      while qe != head && !qe.item.time.Le(when)
        invariant k <= |queue| && qe == r[k]
        invariant forall i :: k <= i < |queue| ==> when.Micros() < ts[i]
        decreases k
      {
        Compares(k, when);
        qe, k := qe.prev, k - 1;
      }
      if k != 0 {
        Compares(k, when);
      }
      PlaceIs(ts, when.Micros(), k);
    }

    /** The event at place k of the ring, after the head. */
    lemma Compares(k: nat, when: Clock)
      requires Valid() && 0 < k <= |queue| && when.Normal()
      ensures ([head] + queue)[k] != head && ([head] + queue)[k].prev == ([head] + queue)[k - 1]
      ensures ([head] + queue)[k].item.time.Le(when) <==> Micros(queue)[k - 1] <= when.Micros()
    {
      var r := [head] + queue;
      assert r[k].prev == r[Before(k, |r|)] && r[0] != r[k] && r[k] == queue[k - 1];
      Ordered(r[k].item.time, when);
    }

    lemma SortedSplice(e: Element, k: nat)
      requires Sorted(queue) && e.item.time.Normal() && k == RxEvent.Place(Micros(queue), e.item.time.Micros())
      ensures Sorted(Spliced(queue, k, e))
    {
      StillSorted(Micros(queue), e.item.time.Micros());
      MicrosSplice(queue, k, e);
    }

    /** e goes into the ring after its element k. */
    method Join(qe: Element, e: Element, ghost k: nat)
      requires Rings() && k <= |queue| && qe == ([head] + queue)[k]
      requires e !in [head] + queue && e !in [freeHead] + free
      modifies this`nPosted, this`queue, head`next, head`prev, queue`next, queue`prev, e`next, e`prev
      ensures Rings() && queue == Spliced(old(queue), k, e)
    {
      ghost var r := [head] + queue;
      InsertBeside(qe, e, r, k, [freeHead] + free);
      HeadAndSpliced(head, queue, k, e);
      queue := Spliced(queue, k, e);
      nPosted := nPosted + 1;
    }

    /** The same keeps the queue sorted when k is the place of the event's time. */
    method JoinSorted(qe: Element, e: Element, ghost k: nat)
      requires Valid() && e.item.time.Normal() && k == RxEvent.Place(Micros(queue), e.item.time.Micros()) && qe == ([head] + queue)[k]
      requires e !in [head] + queue && e !in [freeHead] + free
      modifies this`nPosted, this`queue, head`next, head`prev, queue`next, queue`prev, e`next, e`prev
      ensures Valid() && queue == Spliced(old(queue), k, e)
    {
      SortedSplice(e, k);
      Join(qe, e, k);
      SameTimes(queue);
    }

    method Link(e: Element, when: Clock) returns (earliest: bool, ghost k: nat)
      requires Valid() && when.Normal() && e.item.time == when
      requires e !in [head] + queue && e !in [freeHead] + free
      modifies this`nPosted, this`queue, head`next, head`prev, queue`next, queue`prev, e`next, e`prev
      ensures Valid() && k == RxEvent.Place(old(Micros(queue)), when.Micros())
      ensures queue == Spliced(old(queue), k, e) && earliest == (k == 0)
    {
      var qe;
      qe, k := FindSlot(when);
      earliest := qe == head;
      JoinSorted(qe, e, k);
    }

    /** rxevent_Post; earliest says whether the external scheduler is told. */
    method Post(when: Clock, what: int) returns (e: Element, earliest: bool)
      requires Valid() && when.Normal()
      modifies this, head, freeHead, free, queue`next, queue`prev
      ensures Valid() && e.item.time == when && e.item.what == what
      ensures var k := RxEvent.Place(old(Micros(queue)), when.Micros());
              queue == Spliced(old(queue), k, e) && earliest == (k == 0)
      ensures nFree + nPosted == old(nFree + nPosted) + if old(nFree) == 0 then allocUnit else 0
    {
      e := Grab();
      e.item := Record(when, what);
      SameTimes(queue);
      ghost var k;
      earliest, k := Link(e, when);
    }

    /** _QR of an event on the queue. */
    method Extract(e: Element, ghost k: nat)
      requires Rings() && k < |queue| && queue[k] == e
      modifies this`nPosted, this`queue, head`next, head`prev, queue`next, queue`prev
      ensures Rings() && queue == Dropped(old(queue), k)
      ensures e !in [head] + queue && e !in [freeHead] + free
    {
      HeadAndDropped(head, queue, k);
      UnlinkBeside(e, [head] + queue, k + 1, [freeHead] + free);
      queue := Dropped(queue, k);
      nPosted := nPosted - 1;
    }

    /** rxevent_Cancel_1 of an event on the queue. */
    method Cancel(e: Element, ghost k: nat)
      requires Valid() && k < |queue| && queue[k] == e
      modifies this`nFree, this`nPosted, this`queue, this`free,
               head`next, head`prev, queue`next, queue`prev, freeHead`next, freeHead`prev, free`next, free`prev
      ensures Valid() && queue == Dropped(old(queue), k) && free == old(free) + [e]
    {
      SortedDrop(k);
      Extract(e, k);
      AddFree(e);
      SameTimes(queue);
    }

    lemma SortedDrop(k: nat)
      requires Sorted(queue) && k < |queue|
      ensures Sorted(Dropped(queue, k))
    {
      var q := Dropped(queue, k);
      assert forall i :: 0 <= i < |q| ==> q[i] == queue[if i < k then i else i + 1];
    }

    /**
     * The turn of the loop in rxevent_RaiseEvents: the first event when it is due, or how long to
     * wait for it.  The handler runs after this, and AddFree gives the record back after the handler.
     */
    method TakeDue(now: Clock) returns (e: Node?<Record>, wait: Clock)
      requires Valid() && now.Normal()
      modifies this`nPosted, this`queue, head`next, head`prev, queue`next, queue`prev
      ensures Valid()
      ensures e == null <==> old(queue) == [] || now.Micros() < old(queue[0].item.time.Micros())
      ensures e != null ==> [e] + queue == old(queue) && e.next == null && e !in [freeHead] + free
      ensures e == null ==> queue == old(queue)
      ensures e == null && queue != [] ==>
                wait.Normal() && 0 < wait.Micros() == queue[0].item.time.Micros() - now.Micros()
    {
      ghost var r := [head] + queue;
      assert r[0].next == r[After(0, |r|)];
      wait := Clock(0, 0);
      if head.next == head { return null, wait; }
      e := head.next;
      assert e == queue[0];
      Ordered(now, e.item.time);
      if now.Lt(e.item.time) {
        wait := Sub(e.item.time, now);
        return null, wait;
      }
      Detach(e);
    }

    method Detach(e: Element)
      requires Valid() && queue != [] && queue[0] == e
      modifies this`nPosted, this`queue, head`next, head`prev, queue`next, queue`prev
      ensures Valid() && [e] + queue == old(queue) && e.next == null && e.prev == null
    {
      SortedDrop(0);
      Extract(e, 0);
      assert Dropped(old(queue), 0) == old(queue)[1..];
      SetAside(e);
      SameTimes(queue);
    }

    method SetAside(e: Element)
      requires Rings() && e !in [head] + queue && e !in [freeHead] + free
      modifies e`next, e`prev
      ensures Rings() && e.next == null && e.prev == null
    {
      e.next, e.prev := null, null;
    }
  }
}
