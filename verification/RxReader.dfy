/**
 * The reading half of rx/rx_rdwr.c: rx_Read copies bytes out of the buffers of the
 * current packet through a cursor and takes the next packet in sequence when the
 * current one is used up.  incoming holds the packets the transport will let it take;
 * where the source sleeps for a packet, the method returns with outcome Blocked.
 */
module RxReader {
  import opened RxBase
  import opened RxIovec

  /** A received packet: buffers of any sizes, of which the first length bytes count. */
  datatype Arrival = Arrival(vec: Buffers, length: nat, last: bool)

  predicate WellFormed(a: Arrival) {
    a.vec != [] && a.length <= |Data(a.vec)| && forall k :: 1 <= k < |a.vec| ==> 0 < |a.vec[k]|
  }

  function Payload(a: Arrival): seq<Byte>
    requires WellFormed(a)
  {
    Data(a.vec)[..a.length]
  }

  predicate AllWellFormed(q: seq<Arrival>) {
    forall i :: 0 <= i < |q| ==> WellFormed(q[i])
  }

  ghost function Payloads(q: seq<Arrival>): seq<Byte>
    requires AllWellFormed(q)
  {
    if q == [] then [] else Payload(q[0]) + Payloads(q[1..])
  }

  /** Nothing comes after the last packet. */
  predicate EndsLast(q: seq<Arrival>, done: bool) {
    (done ==> q == []) && forall i :: 0 <= i < |q| - 1 ==> !q[i].last
  }

  lemma TailOk(q: seq<Arrival>, done: bool)
    requires AllWellFormed(q) && EndsLast(q, done) && q != []
    ensures AllWellFormed(q[1..]) && EndsLast(q[1..], done || q[0].last)
    ensures Payloads(q) == Payload(q[0]) + Payloads(q[1..])
  {
  }

  lemma {:induction false} PayloadsSnoc(q: seq<Arrival>, a: Arrival)
    requires AllWellFormed(q) && WellFormed(a)
    ensures AllWellFormed(q + [a]) && Payloads(q + [a]) == Payloads(q) + Payload(a)
    decreases |q|
  {
    if q != [] {
      PayloadsSnoc(q[1..], a);
      assert (q + [a])[1..] == q[1..] + [a];
    }
  }

  lemma {:induction false} PayloadsConcat(q: seq<Arrival>, r: seq<Arrival>)
    requires AllWellFormed(q) && AllWellFormed(r)
    ensures AllWellFormed(q + r) && Payloads(q + r) == Payloads(q) + Payloads(r)
    decreases |q|
  {
    if q == [] {
      assert q + r == r;
    } else {
      PayloadsConcat(q[1..], r);
      assert (q + r)[1..] == q[1..] + r;
    }
  }

  /** Packets without data among these. */
  function Empties(q: seq<Arrival>): nat {
    if q == [] then 0 else Empties(q[..|q| - 1]) + One(q[|q| - 1].length == 0)
  }

  /** What is lost once these packets have been taken: the empty ones that another followed. */
  function Lost(q: seq<Arrival>): nat {
    if q == [] then 0 else Empties(q[..|q| - 1])
  }

  lemma LostSnoc(q: seq<Arrival>, a: Arrival)
    ensures Lost(q + [a]) == Lost(q) + if q == [] then 0 else One(q[|q| - 1].length == 0)
  {
    assert (q + [a])[..|q|] == q;
  }

  lemma {:induction false} EmptiesZero(q: seq<Arrival>)
    ensures Empties(q) == 0 <==> forall i :: 0 <= i < |q| ==> 0 < q[i].length
    decreases |q|
  {
    if q != [] {
      EmptiesZero(q[..|q| - 1]);
    }
  }

  /** No packet is lost if and only if no empty one was followed by another. */
  lemma LostExactly(q: seq<Arrival>)
    ensures Lost(q) == 0 <==> forall i :: 0 <= i < |q| - 1 ==> 0 < q[i].length
  {
    if q != [] {
      EmptiesZero(q[..|q| - 1]);
    }
  }

  lemma {:induction false} EmptiesConcat(q: seq<Arrival>, r: seq<Arrival>)
    ensures Empties(q + r) == Empties(q) + Empties(r)
    decreases |r|
  {
    if r == [] {
      assert q + r == q;
    } else {
      EmptiesConcat(q, r[..|r| - 1]);
      assert (q + r)[..|q + r| - 1] == q + r[..|r| - 1];
    }
  }

  /** What is lost on the way from q to q + r: the empty ones of the last before and all but the last of r. */
  lemma LostOnTheWay(q: seq<Arrival>, r: seq<Arrival>)
    ensures Lost(q + r) == Lost(q) + if r == [] then 0
                                     else Empties(r[..|r| - 1]) + if q == [] then 0 else One(q[|q| - 1].length == 0)
  {
    if r == [] {
      assert q + r == q;
    } else {
      assert (q + r)[..|q + r| - 1] == q + r[..|r| - 1];
      EmptiesConcat(q, r[..|r| - 1]);
    }
  }

  /** How many of these packets a read of nbytes takes, when left bytes of the current one are unread. */
  function Takes(nbytes: nat, left: nat, q: seq<Arrival>): (k: nat)
    ensures k <= |q|
    decreases |q|
  {
    if nbytes <= left || q == [] then 0 else 1 + Takes(nbytes - left, q[0].length, q[1..])
  }

  datatype Outcome = Full | EndOfCall | Blocked

  /** What was taken is what was returned and what is left, and what is lost is counted. */
  ghost predicate Recorded(arrivals: seq<Arrival>, got: seq<Byte>, rest: seq<Byte>,
                           current: bool, nLeft: nat, leaked: nat, done: bool)
  {
    && AllWellFormed(arrivals) && Payloads(arrivals) == got + rest
    && Kept(arrivals, current, nLeft) && leaked == Lost(arrivals) && Stands(arrivals, |rest|, done)
  }

  /** What is left is of the packet taken last, and the reading is done when that is the last of all. */
  predicate Stands(arrivals: seq<Arrival>, left: nat, done: bool) {
    if arrivals == [] then left == 0 && !done
    else left <= arrivals[|arrivals| - 1].length && done == arrivals[|arrivals| - 1].last
  }

  lemma RecordTake(arrivals: seq<Arrival>, got: seq<Byte>, current: bool, leaked: nat, done: bool, a: Arrival)
    requires Recorded(arrivals, got, [], current, 0, leaked, done) && WellFormed(a)
    ensures Recorded(arrivals + [a], got, Payload(a), true, a.length, leaked + One(current), a.last)
  {
    PayloadsSnoc(arrivals, a);
    LostSnoc(arrivals, a);
    assert got + [] == got;
  }

  lemma RecordCopy(arrivals: seq<Arrival>, got: seq<Byte>, x: seq<Byte>, rest: seq<Byte>,
                   nLeft: nat, left: nat, leaked: nat, done: bool)
    requires Recorded(arrivals, got, x + rest, true, nLeft, leaked, done) && 0 < nLeft
    ensures Recorded(arrivals, got + x, rest, 0 < left, left, leaked, done)
  {
    assert got + x + rest == got + (x + rest);
  }

  lemma Regrouped(got: seq<Byte>, x: seq<Byte>, rest: seq<Byte>, more: seq<Byte>)
    ensures x + (rest + more) == (x + rest) + more && got + x + (rest + more) == got + ((x + rest) + more)
  {
  }

  /** The current packet is the last taken, and is kept until it is used up; an empty one is not freed. */
  predicate Kept(arrivals: seq<Arrival>, current: bool, nLeft: nat) {
    if current then arrivals != [] && (nLeft == 0 <==> arrivals[|arrivals| - 1].length == 0)
    else arrivals != [] ==> 0 < arrivals[|arrivals| - 1].length
  }

  class Reader {
    var current: bool // currentPacket is not null
    var vec: Buffers
    var curvec: nat
    var curpos: nat
    var nLeft: nat
    var receiveDone: bool
    var incoming: seq<Arrival>
    var leaked: nat // packets lost by overwriting currentPacket

    ghost var rest: seq<Byte> // what is left of the current packet
    ghost var arrivals: seq<Arrival> // the packets taken so far
    ghost var got: seq<Byte> // the bytes returned so far

    ghost predicate Valid()
      reads this
    {
      Ready() && Recorded(arrivals, got, rest, current, nLeft, leaked, receiveDone)
    }

    ghost predicate Ready()
      reads this
    {
      QueueOk() && if current then Cursor() else nLeft == 0 && rest == []
    }

    constructor (incoming: seq<Arrival>)
      requires AllWellFormed(incoming) && EndsLast(incoming, false)
      ensures Valid() && this.incoming == incoming && arrivals == [] && got == [] && leaked == 0 && !current
    {
      current, vec, curvec, curpos, nLeft := false, [], 1, 0, 0;
      receiveDone, leaked := false, 0;
      rest, arrivals, got := [], [], [];
      this.incoming := incoming;
    }

    /** The packets that may be taken now. */
    method Offer(q: seq<Arrival>)
      requires Valid() && AllWellFormed(q) && EndsLast(q, receiveDone)
      modifies this`incoming
      ensures Valid() && incoming == q
    {
      incoming := q;
    }

    ghost predicate QueueOk()
      reads this
    {
      AllWellFormed(incoming) && EndsLast(incoming, receiveDone)
    }

    ghost predicate Cursor()
      reads this
    {
      Positioned() && (curvec < |vec| && 0 < nLeft ==> curpos < |vec[curvec]|)
    }

    /** The cursor stands before the bytes that are left. */
    ghost predicate Positioned()
      reads this
    {
      && 1 <= curvec <= |vec|
      && (forall k :: 1 <= k < |vec| ==> 0 < |vec[k]|)
      && Remains(vec, Offset(vec, curvec) + curpos, nLeft, rest)
    }

    ghost function Unread(): seq<Byte>
      requires QueueOk()
      reads this
    {
      rest + Payloads(incoming)
    }

    /** The cursor goes to the first byte of the packet. */
    method Load(a: Arrival)
      requires WellFormed(a)
      modifies this`current, this`vec, this`curvec, this`curpos, this`nLeft, this`rest
      ensures current && Cursor() && nLeft == a.length && rest == Payload(a)
    {
      FirstByte(a);
      current, vec, curvec, curpos, nLeft := true, a.vec, 1, 0, a.length;
      rest := Payload(a);
    }

    /** The next packet in sequence becomes the current one. */
    method TakeNext()
      requires Ready() && nLeft == 0 && incoming != []
      modifies this`current, this`vec, this`curvec, this`curpos, this`nLeft, this`rest, this`incoming, this`receiveDone, this`leaked
      ensures Ready() && Unread() == old(Unread())
      ensures incoming == old(incoming)[1..] && receiveDone == old(receiveDone || incoming[0].last)
      ensures current && nLeft == old(incoming)[0].length && rest == Payload(old(incoming)[0])
      ensures leaked == old(leaked + One(current))
    {
      var a := incoming[0];
      TailOk(incoming, receiveDone);
      incoming := incoming[1..];
      if current {
        leaked := leaked + 1;
      }
      Load(a);
      if a.last {
        receiveDone := true;
      }
    }

    method TakePacket()
      requires Valid() && nLeft == 0 && incoming != []
      modifies this
      ensures Valid() && Unread() == old(Unread())
      ensures incoming == old(incoming)[1..] && receiveDone == old(receiveDone || incoming[0].last)
      ensures current && nLeft == old(incoming)[0].length
      ensures leaked == old(leaked + One(current))
      ensures arrivals == old(arrivals) + [old(incoming)[0]] && got == old(got)
      ensures Everything() == old(Everything())
    {
      assert arrivals + [incoming[0]] + incoming[1..] == arrivals + incoming;
      NothingLeft();
      RecordTake(arrivals, got, current, leaked, receiveDone, incoming[0]);
      arrivals := arrivals + [incoming[0]];
      TakeNext();
    }

    lemma NothingLeft()
      requires Ready() && nLeft == 0
      ensures rest == []
    {
    }

    /** One memcpy out of the current buffer. */
    method Fetch(t: nat) returns (x: seq<Byte>)
      requires Positioned() && curvec < |vec| && curpos + t <= |vec[curvec]| && t <= nLeft
      modifies this`curpos, this`nLeft, this`rest
      ensures Positioned() && |x| == t && x + rest == old(rest)
      ensures curpos == old(curpos) + t && nLeft == old(nLeft) - t
    {
      x := vec[curvec][curpos..curpos + t];
      CopyKeeps(vec, curvec, curpos, nLeft, t, rest);
      rest := rest[t..];
      curpos := curpos + t;
      nLeft := nLeft - t;
    }

    /** On to the next buffer; a packet whose length is honest never runs out of them. */
    method NextBuffer()
      requires Positioned() && current && curvec < |vec| && curpos == |vec[curvec]| && 0 < nLeft
      modifies this`curvec, this`curpos
      ensures Cursor()
    {
      DataSplit(vec, curvec);
      curvec := curvec + 1;
      CursorInside(vec, curvec, 0, nLeft);
      if curvec > |vec| {
        assert false;
      }
      curpos := 0;
    }

    /** One turn of the loop that empties a packet. */
    method CopyBytes(nbytes: nat) returns (x: seq<Byte>)
      requires Ready() && current && 0 < nLeft && 0 < nbytes
      modifies this`current, this`curvec, this`curpos, this`nLeft, this`rest
      ensures Ready() && 0 < |x| <= nbytes
      ensures x + rest == old(rest) && current == (0 < nLeft) && |x| + nLeft == old(nLeft)
    {
      CursorInside(vec, curvec, curpos, nLeft);
      var l1 := |vec[curvec]| - curpos;
      var t := Min(Min(l1, nbytes), nLeft);
      x := Fetch(t);
      if nLeft == 0 {
        current := false;
      } else if l1 == t {
        NextBuffer();
      }
    }

    method CopyOut(nbytes: nat) returns (x: seq<Byte>)
      requires Valid() && current && 0 < nLeft && 0 < nbytes
      modifies this`current, this`curvec, this`curpos, this`nLeft, this`rest, this`got
      ensures Valid() && 0 < |x| <= nbytes && got == old(got) + x
      ensures x + Unread() == old(Unread()) && Everything() == old(Everything())
      ensures current == (0 < nLeft) && |x| + nLeft == old(nLeft)
    {
      x := CopyBytes(nbytes);
      RecordCopy(arrivals, got, x, rest, old(nLeft), nLeft, leaked, receiveDone);
      got := got + x;
      Regrouped(old(got), x, rest, Payloads(incoming));
    }

    /** All bytes of the stream so far, and all packets: neither changes as they are read. */
    ghost function Everything(): (seq<Byte>, seq<Arrival>)
      requires QueueOk()
      reads this
    {
      (got + Unread(), arrivals + incoming)
    }

    /** The packets that a read of n more bytes leaves; it stays the same while the read goes on. */
    ghost function Spared(n: nat): nat
      reads this
    {
      |incoming| - Takes(n, nLeft, incoming)
    }

    /** One turn of the outer loop of rx_Read; stuck when no packet is there to take. */
    method Turn(nbytes: nat) returns (x: seq<Byte>, stuck: bool)
      requires Valid() && 0 < nbytes
      modifies this
      ensures Valid() && |x| <= nbytes && got == old(got) + x && Everything() == old(Everything())
      ensures stuck ==> x == [] && Unread() == [] && incoming == []
      ensures |incoming| <= |old(incoming)|
      ensures !stuck ==> |incoming| < |old(incoming)| || 0 < |x|
      ensures Spared(nbytes - |x|) == old(Spared(nbytes))
    {
      x, stuck := [], false;
      if nLeft == 0 {
        NothingLeft();
        if incoming != [] {
          TakePacket();
        } else {
          stuck := true;
        }
      } else {
        x := CopyOut(nbytes);
      }
    }

    /** The outer loop. */
    method ReadLoop(nbytes: nat) returns (data: seq<Byte>, stuck: bool)
      requires Valid()
      modifies this
      ensures Valid() && got == old(got) + data && Everything() == old(Everything())
      ensures |data| <= nbytes && |incoming| <= |old(incoming)| && (stuck <==> |data| < nbytes)
      ensures stuck ==> Unread() == [] && incoming == []
      ensures |incoming| == old(Spared(nbytes))
    {
      data, stuck := [], false;
      while |data| < nbytes
        invariant Valid() && |data| <= nbytes && got == old(got) + data && Everything() == old(Everything())
        invariant |incoming| <= |old(incoming)|
        invariant Spared(nbytes - |data|) == old(Spared(nbytes))
        decreases |incoming|, nbytes - |data|
      {
        var x;
        x, stuck := Turn(nbytes - |data|);
        assert old(got) + data + x == old(got) + (data + x);
        data := data + x;
        if stuck {
          return;
        }
      }
      stuck := false;
    }

    method ReadBytes(nbytes: nat) returns (data: seq<Byte>, stuck: bool)
      requires Valid()
      modifies this
      ensures Valid() && got == old(got) + data && data + Unread() == old(Unread())
      ensures arrivals + incoming == old(arrivals + incoming)
      ensures |data| <= nbytes && |incoming| <= |old(incoming)| && (stuck <==> |data| < nbytes)
      ensures stuck ==> Unread() == [] && incoming == []
      ensures |old(incoming)| - |incoming| == Takes(nbytes, old(nLeft), old(incoming))
    {
      data, stuck := ReadLoop(nbytes);
      Cancelled(old(got), old(Unread()), data, Unread());
    }

    /** rx_Read of an error-free call. */
    method Read(nbytes: nat) returns (data: seq<Byte>, outcome: Outcome)
      requires Valid()
      modifies this
      ensures Valid()
      ensures data + Unread() == old(Unread()) && got == old(got) + data
      ensures |data| <= nbytes
      ensures outcome == Full <==> |data| == nbytes
      ensures outcome != Full ==> Unread() == [] && incoming == [] && (outcome == EndOfCall <==> receiveDone)
      ensures Taken(old(arrivals), old(incoming), arrivals, incoming)
      ensures |old(incoming)| - |incoming| == Takes(nbytes, old(nLeft), old(incoming))
      ensures leaked == old(leaked) + Loss(old(incoming), Takes(nbytes, old(nLeft), old(incoming)), old(current && nLeft == 0))
    {
      var stuck;
      data, stuck := ReadBytes(nbytes);
      outcome := if !stuck then Full else if receiveDone then EndOfCall else Blocked;
      Accounts(old(arrivals), old(incoming), old(current), old(nLeft), old(leaked), arrivals, incoming, current, nLeft, leaked);
    }

    /** rx_Read when these packets are the next in sequence; p are those it takes. */
    method ReadOffered(q: seq<Arrival>, nbytes: nat) returns (data: seq<Byte>, outcome: Outcome, ghost p: seq<Arrival>)
      requires Valid() && AllWellFormed(q) && EndsLast(q, receiveDone)
      modifies this
      ensures Valid() && p <= q && arrivals == old(arrivals) + p && got == old(got) + data
      ensures |p| == Takes(nbytes, old(nLeft), q)
      ensures |data| <= nbytes && (outcome == Full <==> |data| == nbytes)
      ensures outcome != Full ==> p == q && rest == [] && (outcome == EndOfCall <==> receiveDone)
    {
      Offer(q);
      data, outcome := Read(nbytes);
      p := q[..|q| - |incoming|];
    }
  }

  /** What taking k of the packets loses, when an empty packet was kept before or was not. */
  function Loss(q: seq<Arrival>, k: nat, kept: bool): nat
    requires k <= |q|
  {
    if k == 0 then 0 else Empties(q[..k - 1]) + One(kept)
  }

  /**
   * Before a read it can be told whether it will lose a packet: it loses none if and only if it
   * takes none, or none was kept and none it takes is empty but the last of them.
   */
  lemma LossExactly(nbytes: nat, left: nat, q: seq<Arrival>, kept: bool)
    ensures var k := Takes(nbytes, left, q);
            Loss(q, k, kept) == 0 <==> k == 0 || (!kept && forall i :: 0 <= i < k - 1 ==> 0 < q[i].length)
  {
    var k := Takes(nbytes, left, q);
    if k != 0 {
      EmptiesZero(q[..k - 1]);
    }
  }

  /** A read takes packets until they hold what it is to return, and no more than it needs. */
  lemma {:induction false} TakesEnough(nbytes: nat, left: nat, q: seq<Arrival>)
    requires AllWellFormed(q)
    ensures var k := Takes(nbytes, left, q);
            && (k < |q| ==> nbytes <= left + |Payloads(q[..k])|)
            && (0 < k ==> left + |Payloads(q[..k - 1])| < nbytes)
    decreases |q|
  {
    var k := Takes(nbytes, left, q);
    if 0 < k {
      TakesEnough(nbytes - left, q[0].length, q[1..]);
      assert q[..k][1..] == q[1..][..k - 1] && |Payload(q[0])| == q[0].length;
      if 1 < k {
        assert q[..k - 1][1..] == q[1..][..k - 2];
      }
    }
  }

  /** Packets pass in order from those that may be taken to those taken. */
  predicate Taken(arrivals0: seq<Arrival>, incoming0: seq<Arrival>, arrivals: seq<Arrival>, incoming: seq<Arrival>) {
    && |incoming| <= |incoming0|
    && var k := |incoming0| - |incoming|;
       arrivals == arrivals0 + incoming0[..k] && incoming == incoming0[k..]
  }

  lemma Cancelled(got: seq<Byte>, unread: seq<Byte>, data: seq<Byte>, left: seq<Byte>)
    requires got + data + left == got + unread
    ensures data + left == unread
  {
    assert got + data + left == got + (data + left);
    assert (got + (data + left))[|got|..] == (got + unread)[|got|..];
  }

  lemma TakenFrom(arrivals0: seq<Arrival>, incoming0: seq<Arrival>, arrivals: seq<Arrival>, incoming: seq<Arrival>)
    requires arrivals + incoming == arrivals0 + incoming0 && |incoming| <= |incoming0|
    ensures Taken(arrivals0, incoming0, arrivals, incoming)
  {
    var k, all := |incoming0| - |incoming|, arrivals0 + incoming0;
    assert arrivals == all[..|arrivals|] && incoming == all[|arrivals|..];
  }

  lemma LostByRead(arrivals0: seq<Arrival>, incoming0: seq<Arrival>, arrivals: seq<Arrival>, incoming: seq<Arrival>)
    requires Taken(arrivals0, incoming0, arrivals, incoming)
    ensures Lost(arrivals) == Lost(arrivals0) +
              Loss(incoming0, |incoming0| - |incoming|, arrivals0 != [] && arrivals0[|arrivals0| - 1].length == 0)
  {
    var k := |incoming0| - |incoming|;
    LostOnTheWay(arrivals0, incoming0[..k]);
    if k != 0 {
      assert incoming0[..k][..k - 1] == incoming0[..k - 1];
    }
  }

  lemma Accounts(arrivals0: seq<Arrival>, incoming0: seq<Arrival>, current0: bool, nLeft0: nat, leaked0: nat,
                 arrivals: seq<Arrival>, incoming: seq<Arrival>, current: bool, nLeft: nat, leaked: nat)
    requires Kept(arrivals0, current0, nLeft0) && leaked0 == Lost(arrivals0)
    requires Kept(arrivals, current, nLeft) && leaked == Lost(arrivals)
    requires arrivals + incoming == arrivals0 + incoming0 && |incoming| <= |incoming0|
    ensures Taken(arrivals0, incoming0, arrivals, incoming)
    ensures leaked == leaked0 + Loss(incoming0, |incoming0| - |incoming|, current0 && nLeft0 == 0)
  {
    TakenFrom(arrivals0, incoming0, arrivals, incoming);
    LostByRead(arrivals0, incoming0, arrivals, incoming);
  }

  /** The source's comment fails here: an empty packet that is not last, then another, and one is lost. */
  method EmptyPacketIsLost(b: Byte) returns (r: Reader, data: seq<Byte>)
    ensures fresh(r) && data == [b] && r.leaked == 1
  {
    var empty, one := Arrival([[], [b]], 0, false), Arrival([[], [b]], 1, true);
    assert one.vec[1..] == [[b]];
    FlatOne([b]);
    assert Data(one.vec) == [b];
    var q := [empty, one];
    assert WellFormed(empty) && WellFormed(one);
    r := new Reader(q);
    assert q[1..] == [one] && [one][1..] == [];
    assert Payloads([one]) == [b] && Payloads(q) == [b];
    var outcome;
    data, outcome := r.Read(1);
    assert data + r.Unread() == [b];
    assert q[0..] == q && q[..1] == [empty] && [empty][..0] == [];
    assert Empties([empty]) == 1;
  }

  /** left is the stretch of n bytes of the packet's data that starts at byte o. */
  ghost predicate Remains(vec: Buffers, o: nat, n: nat, left: seq<Byte>) {
    vec != [] && o + n <= |Data(vec)| && left == Data(vec)[o..o + n]
  }

  lemma CursorInside(vec: Buffers, curvec: nat, curpos: nat, nLeft: nat)
    requires vec != [] && 1 <= curvec <= |vec| && 0 < nLeft
    requires Offset(vec, curvec) + curpos + nLeft <= |Data(vec)|
    ensures curvec < |vec|
  {
    DataPrefix(vec, curvec);
  }

  lemma CopyKeeps(vec: Buffers, curvec: nat, curpos: nat, nLeft: nat, t: nat, left: seq<Byte>)
    requires 1 <= curvec < |vec| && curpos + t <= |vec[curvec]| && t <= nLeft
    requires Remains(vec, Offset(vec, curvec) + curpos, nLeft, left)
    ensures left[..t] == vec[curvec][curpos..curpos + t]
    ensures Remains(vec, Offset(vec, curvec) + curpos + t, nLeft - t, left[t..])
    ensures Offset(vec, curvec + 1) == Offset(vec, curvec) + |vec[curvec]|
  {
    DataSplit(vec, curvec);
    Stretch(Flat(vec[1..curvec]), vec[curvec], Flat(vec[curvec + 1..]), curpos, t);
    Slices(Data(vec), Offset(vec, curvec) + curpos, nLeft, t);
  }

  lemma Stretch(a: seq<Byte>, b: seq<Byte>, c: seq<Byte>, i: nat, t: nat)
    requires i + t <= |b|
    ensures (a + b + c)[|a| + i..|a| + i + t] == b[i..i + t]
  {
  }

  lemma Slices(data: seq<Byte>, o: nat, n: nat, t: nat)
    requires t <= n && o + n <= |data|
    ensures data[o..o + n][..t] == data[o..o + t] && data[o..o + n][t..] == data[o + t..o + n]
  {
  }

  lemma FirstByte(a: Arrival)
    requires WellFormed(a)
    ensures Offset(a.vec, 1) == 0 && Remains(a.vec, 0, a.length, Payload(a))
    ensures 0 < a.length ==> 1 < |a.vec|
  {
    assert a.vec[1..1] == [];
    if |a.vec| == 1 { assert a.vec[1..] == []; }
  }
}
