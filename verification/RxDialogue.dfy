/**
 * Both ends of one direction of a call with the network between them: a writer, a reader and the
 * state of the transport, which any sequence of calls of rx_Write, rx_FlushWrite and rx_Read and of
 * steps of the network may drive.
 */
module RxDialogue {
  import opened RxBase
  import opened RxIovec
  import opened RxTransport
  import opened RxStream
  import opened RxSession
  import W = RxWriter
  import R = RxReader

  /** What may happen next; due are the packets whose timers have run out. */
  datatype Event =
    | Sends(buf: seq<Byte>, due: set<nat>)
    | Finishes(due: set<nat>)
    | Receives(q: seq<R.Arrival>, nbytes: nat)
    | Happens(l: Label)

  function Carried(q: seq<W.Shipment>): seq<W.Parcel>
    requires W.Trimmed(q)
  {
    seq(|q|, i requires 0 <= i < |q| => W.Parcel(Data(q[i].vec), q[i].last))
  }

  /** The packets shipped since are those the stream was given. */
  lemma CarriedSince(q: seq<W.Shipment>, parcels: seq<W.Parcel>, before: seq<W.Parcel>, given: seq<W.Parcel>)
    requires W.Trimmed(q) && W.Carry(q, parcels) && parcels == before + given
    ensures |before| <= |q| && W.Trimmed(q[|before|..]) && Carried(q[|before|..]) == given
  {
  }

  lemma Longer(a: seq<Byte>, b: seq<Byte>, c: seq<Byte>)
    ensures a + b + c == a + (b + c)
  {
  }

  class Dialogue {
    const window: nat
    const client: bool
    const w: W.Writer
    const r: R.Reader
    var net: System
    ghost var s: Stream
    ghost var acts: seq<Action>

    /** The run so far is one the writer has written and the reader has read. */
    ghost predicate Valid()
      reads this, w, r
    {
      s.net == net && Writes(w, window, client, acts, s) && Reads(r, s)
    }

    constructor (window: nat, client: bool, maxUserData: nat -> nat, limitOfData: nat,
                 packetFree: nat -> bool, bufferFree: nat -> bool)
      requires INITIAL_WINDOW <= window && forall i: nat :: 1 <= maxUserData(i) <= limitOfData
      ensures Valid() && fresh(w) && fresh(r) && w.Written() == [] && r.got == []
    {
      this.window, this.client := window, client;
      var x, y := Connect(window, client, maxUserData, limitOfData, packetFree, bufferFree);
      w, r := x, y;
      net, s, acts := Init(window, client), Begin(window, client), [];
      new;
      WriterTold(w, window, client, acts, s);
    }

    /** The packets shipped after the first so many go to the transport. */
    method HandOver(handed: nat, due: set<nat>, ghost more: seq<Action>, ghost t: Stream, ghost given: seq<W.Parcel>)
      requires s.net == net && handed == |Tell(s).parcels| && Reads(r, s)
      requires Writes(w, window, client, acts + more, t) && Wrote(s, t, given, due)
      modifies this`net, this`s, this`acts
      ensures Valid() && s == t && acts == old(acts) + more
    {
      WriterTold(w, window, client, acts + more, t);
      CarriedSince(w.shipped, w.told.parcels, Tell(s).parcels, given);
      KeepsReading(r, s, t);
      net := HandAll(net, Carried(w.shipped[handed..]), due);
      s, acts := t, acts + more;
    }

    /** rx_Write; what it sleeps for is so. */
    method Send(buf: seq<Byte>, due: set<nat>) returns (n: nat, outcome: W.Outcome, ghost more: seq<Action>)
      requires Valid()
      modifies this`net, this`s, this`acts, w
      ensures Valid() && acts == old(acts) + more && Play(old(s), more, s) && Writing(more)
      ensures n <= |buf| && w.Written() == old(w.Written()) + buf[..n]
      ensures outcome == W.Done ==> n == |buf|
      ensures outcome == W.Refused <==> old(s).writing.Flushed?
      ensures outcome == W.Asleep ==> !WindowOpen(net.snd)
      ensures outcome == W.Starved ==> WindowOpen(net.snd)
    {
      WriterTold(w, window, client, acts, s);
      var handed := |w.shipped|;
      ghost var t, given;
      n, outcome, more, t, given := RxSession.Send(w, buf, net.snd.tfirst + net.snd.twind, due, window, client, acts, s);
      WriterTold(w, window, client, acts + more, t);
      HandOver(handed, due, more, t, given);
    }

    /** rx_FlushWrite, by a process that is not asleep in rx_Write. */
    method Finish(due: set<nat>) returns (outcome: W.Outcome, ghost more: seq<Action>)
      requires Valid() && (w.open || !w.sending || w.shipped == [])
      modifies this`net, this`s, this`acts, w
      ensures Valid() && acts == old(acts) + more && Play(old(s), more, s) && Writing(more)
      ensures w.Written() == old(w.Written())
      ensures outcome == W.Done ==> s.writing.Flushed?
      ensures outcome != W.Done ==> outcome == W.Starved && s == old(s)
    {
      WriterTold(w, window, client, acts, s);
      var handed := |w.shipped|;
      ghost var t, given;
      outcome, more, t, given := RxSession.Finish(w, net.snd.tfirst + net.snd.twind, due, window, client, acts, s);
      WriterTold(w, window, client, acts + more, t);
      HandOver(handed, due, more, t, given);
    }

    /** rx_Read, when these packets are in sequence on the receive queue. */
    method Receive(q: seq<R.Arrival>, nbytes: nat) returns (data: seq<Byte>, outcome: R.Outcome, ghost more: seq<Action>)
      requires Valid() && Available(net.rcv, q)
      modifies this`net, this`s, this`acts, r
      ensures Valid() && acts == old(acts) + more && Play(old(s), more, s) && Reading(more)
      ensures old(r.got) + data == r.got <= w.Written() && |data| <= nbytes
      ensures outcome == R.Full <==> |data| == nbytes
      ensures outcome == R.EndOfCall ==> r.got == w.Written()
      ensures r.leaked == 0
    {
      var k := R.Takes(nbytes, r.nLeft, q);
      ghost var t;
      data, outcome, more, t := RxSession.Receive(w, r, q, nbytes, window, client, acts, s);
      net := TakeAll(net, k);
      s, acts := t, acts + more;
    }

    /** A step of the network or of a timer. */
    method Happen(l: Label)
      requires Valid() && Enabled(net, l) && !l.DoPrepare? && !l.DoTake?
      modifies this`net, this`s, this`acts
      ensures Valid() && net == Step(old(net), l) && acts == old(acts) + [Net(l)]
    {
      Meanwhile(w, r, window, client, acts, s, l);
      net := Step(net, l);
      s, acts := Do(s, Net(l)), acts + [Net(l)];
    }

    /** One event; one that is not possible now passes. */
    method Serve(e: Event) returns (accepted: seq<Byte>, returned: seq<Byte>)
      requires Valid()
      modifies this`net, this`s, this`acts, w, r
      ensures Valid() && w.Written() == old(w.Written()) + accepted && r.got == old(r.got) + returned
    {
      accepted, returned := [], [];
      match e
      case Sends(buf, due) =>
        var n, _, _ := Send(buf, due);
        accepted := buf[..n];
      case Finishes(due) =>
        if w.open || !w.sending || w.shipped == [] {
          var _, _ := Finish(due);
        }
      case Receives(q, nbytes) =>
        if Available(net.rcv, q) {
          var data, _, _ := Receive(q, nbytes);
          returned := data;
        }
      case Happens(l) =>
        if Enabled(net, l) && !l.DoPrepare? && !l.DoTake? {
          Happen(l);
        }
    }

    /** Every interleaving of the calls at both ends and the steps of the network is a run of the stream. */
    method Drive(events: seq<Event>) returns (accepted: seq<Byte>, returned: seq<Byte>)
      requires Valid()
      modifies this`net, this`s, this`acts, w, r
      ensures Valid() && w.Written() == old(w.Written()) + accepted && r.got == old(r.got) + returned
    {
      accepted, returned := [], [];
      for i := 0 to |events|
        invariant Valid() && w.Written() == old(w.Written()) + accepted && r.got == old(r.got) + returned
      {
        var a, b := Serve(events[i]);
        Longer(old(w.Written()), accepted, a);
        Longer(old(r.got), returned, b);
        accepted, returned := accepted + a, returned + b;
      }
    }

    /** All that has been returned is a prefix of all that was written, and no packet is lost. */
    lemma Safe()
      requires Valid()
      ensures r.got <= w.Written() && r.leaked == 0
      ensures r.receiveDone && r.nLeft == 0 ==> r.got == w.Written()
    {
      SessionSafe(w, r, window, client, acts, s);
      if r.nLeft == 0 {
        r.NothingLeft();
        assert r.got + [] == r.got;
      }
    }
  }

  /**
   * Whatever happens and in whatever order, all that rx_Read has returned is a prefix of all that
   * rx_Write has accepted, and is all of it once the last packet is used up; no packet is lost.
   */
  method Talk(window: nat, client: bool, maxUserData: nat -> nat, limitOfData: nat,
              packetFree: nat -> bool, bufferFree: nat -> bool, events: seq<Event>)
    returns (accepted: seq<Byte>, returned: seq<Byte>, ended: bool, lost: nat)
    requires INITIAL_WINDOW <= window && forall i: nat :: 1 <= maxUserData(i) <= limitOfData
    ensures returned <= accepted && (ended ==> returned == accepted) && lost == 0
  {
    var d := new Dialogue(window, client, maxUserData, limitOfData, packetFree, bufferFree);
    accepted, returned := d.Drive(events);
    assert [] + accepted == accepted && [] + returned == returned;
    d.Safe();
    ended, lost := d.r.receiveDone && d.r.nLeft == 0, d.r.leaked;
  }
}
