/**
 * The call structure of rx/rx.h with the operations of rx/rx.c and rx/rx_rdwr.c that
 * update its queues and windows in place.  Each method is proved against the function
 * of module RxTransport that says what it does.  Timers and packet quotas are
 * parameters: due holds the sequence numbers whose retransmission timer has run out
 * or that were never sent, drop says that the quota test refused a packet.
 */
module RxCall {
  import opened RxBase
  import opened RxTransport

  class Call {
    var tq: seq<TxPacket>
    var tfirst: nat
    var tnext: nat
    var twind: nat
    var rq: seq<DataPacket>
    var rnext: nat
    var rwind: nat
    var lastAcked: nat
    var nSoftAcks: nat
    const window: nat
    const client: bool

    ghost function Snd(): Sender
      reads this
    {
      Sender(tq, tfirst, tnext, twind)
    }

    ghost function Rcv(): Receiver
      reads this
    {
      Receiver(rq, rnext, rwind, lastAcked, nSoftAcks)
    }

    ghost predicate Valid()
      reads this
    {
      && ReceiverOk(Rcv()) && rwind <= MAX_ACKS
      && forall i :: 0 <= i < |tq| ==> tq[i].packet.num == tfirst + i
    }

    constructor (window: nat, client: bool)
      requires 1 <= window <= MAX_ACKS
      ensures Valid()
      ensures this.window == window && this.client == client
      ensures Snd() == Init(window, client).snd && Rcv() == Init(window, client).rcv
    {
      tq, rq := [], [];
      tfirst, tnext, rnext := 1, 1, 1;
      twind, rwind := INITIAL_WINDOW, window;
      lastAcked, nSoftAcks := 0, 0;
      this.window, this.client := window, client;
    }

    /** rxi_PrepareSendPacket and queue_Append, as rx_Write and rx_FlushWrite call them. */
    method PreparePacket(last: bool, bytes: seq<Byte>)
      requires Valid() && |tq| == tnext - tfirst
      modifies this`tq, this`tnext
      ensures Valid() && |tq| == tnext - tfirst
      ensures Snd() == Prepare(old(Snd()), last, bytes)
    {
      tq := tq + [TxPacket(DataPacket(tnext, last, bytes), false)];
      tnext := tnext + 1;
    }

    /** The loop of rxi_Start over the transmit queue. */
    method Start(due: set<nat>) returns (sent: seq<DataPacket>)
      ensures sent == RxTransport.Start(Snd(), due)
    {
      sent := [];
      var i := 0;
      while i < |tq|
        invariant 0 <= i <= |tq|
        invariant sent + Burst(tq[i..], tfirst + twind, due) == RxTransport.Start(Snd(), due)
      {
        var p := tq[i];
        assert tq[i..][1..] == tq[i + 1..];
        if !p.acked {
          if tfirst + twind <= p.packet.num {
            return;
          }
          if p.packet.num in due {
            sent := sent + [p.packet];
          }
        }
        i := i + 1;
      }
    }

    /** rxi_ReceiveAckPacket, with the test made for clients in rxi_ReceivePacket. */
    method ReceiveAckPacket(a: AckPacket, due: set<nat>) returns (sent: seq<DataPacket>)
      requires Valid()
      modifies this`tq, this`tfirst, this`twind
      ensures Valid()
      ensures Snd() == ReceiveAck(old(Snd()), a, window, client)
      ensures sent == (if client && a.firstPacket < old(tfirst) then [] else RxTransport.Start(Snd(), due))
    {
      if client && a.firstPacket < tfirst {
        return [];
      }
      TakeAck(a);
      sent := Start(due);
    }

    /** The part of rxi_ReceiveAckPacket that changes the sender. */
    method TakeAck(a: AckPacket)
      requires Valid()
      modifies this`tq, this`tfirst, this`twind
      ensures Valid()
      ensures Snd() == ReceiveAck(old(Snd()), a, window, false)
    {
      ReleaseHardAcked(a.firstPacket);
      if twind < window {
        twind := twind + 1;
      }
      MarkSoftAcked(a);
    }

    /** Packets below the hard acknowledgement are freed one at a time. */
    method ReleaseHardAcked(first: nat)
      requires Valid()
      modifies this`tq, this`tfirst
      ensures var n := HardAcked(old(tq), first);
              && tq == old(tq)[n..]
              && tfirst == (if n == 0 then old(tfirst) else old(tq)[n - 1].packet.num + 1)
      ensures forall i :: 0 <= i < |tq| ==> first <= tq[i].packet.num && tq[i].packet.num == tfirst + i
    {
      ghost var n := 0;
      while tq != []
        invariant n <= |old(tq)| && tq == old(tq)[n..]
        invariant n + HardAcked(tq, first) == HardAcked(old(tq), first)
        invariant tfirst == if n == 0 then old(tfirst) else old(tq)[n - 1].packet.num + 1
        decreases |tq|
      {
        var tp := tq[0];
        if first <= tp.packet.num {
          break;
        }
        tfirst := tp.packet.num + 1;
        tq := tq[1..];
        n := n + 1;
      }
    }

    method MarkSoftAcked(a: AckPacket)
      requires forall i :: 0 <= i < |tq| ==> a.firstPacket <= tq[i].packet.num
      modifies this`tq
      ensures tq == Marked(old(tq), a)
      ensures |tq| == |old(tq)| && forall i :: 0 <= i < |tq| ==> tq[i].packet == old(tq)[i].packet
    {
      var i := 0;
      while i < |tq|
        invariant 0 <= i <= |tq| == |old(tq)|
        invariant forall k :: 0 <= k < i ==> tq[k] == Marked(old(tq), a)[k]
        invariant forall k :: i <= k < |tq| ==> tq[k] == old(tq)[k]
      {
        var tp := tq[i];
        if tp.packet.num < a.firstPacket + |a.acks| {
          tq := tq[i := tp.(acked := a.acks[tp.packet.num - a.firstPacket])];
        } else {
          tq := tq[i := tp.(acked := false)];
        }
        i := i + 1;
      }
    }

    /** rxi_SendAck: the vector is written through an unsigned char offset. */
    method SendAck() returns (ack: AckPacket)
      requires ReceiverOk(Rcv()) && rwind <= MAX_ACKS
      modifies this`lastAcked, this`nSoftAcks
      ensures Rcv() == AckSent(old(Rcv()))
      ensures ack == AckOf(Rcv())
    {
      if rnext > lastAcked {
        lastAcked := rnext;
      }
      nSoftAcks := 0;
      var acks := new bool[MAX_ACKS];
      var offset := 0;
      var i := 0;
      while i < |rq|
        invariant 0 <= i <= |rq|
        invariant offset == if i == 0 then 0 else rq[i - 1].num + 1 - rnext
        invariant 0 <= offset <= rwind
        invariant forall k :: 0 <= k < offset ==> (acks[k] <==> Held(rq, rnext + k))
        modifies acks
      {
        while rq[i].num > rnext + offset
          invariant (if i == 0 then 0 else rq[i - 1].num + 1 - rnext) <= offset <= rq[i].num - rnext
          invariant forall k :: 0 <= k < offset ==> (acks[k] <==> Held(rq, rnext + k))
          decreases rq[i].num - offset
          modifies acks
        {
          Gap(rq, i, rnext + offset);
          acks[offset] := false;
          offset := (offset + 1) % 256;
        }
        assert rq[i].num == rnext + offset;
        acks[offset] := true;
        offset := (offset + 1) % 256;
        i := i + 1;
      }
      ack := AckPacket(rnext, acks[..offset]);
      assert acks[..offset] == AckVector(rq, rnext);
    }

    /** The scan of the receive queue for the place of sequence number n. */
    method FindPlace(n: nat) returns (i: nat)
      ensures i == ScanStop(rq, n)
    {
      i := 0;
      while i < |rq| && rq[i].num < n
        invariant 0 <= i <= |rq|
        invariant forall k :: 0 <= k < i ==> rq[k].num < n
      {
        i := i + 1;
      }
    }

    /** Link p in before entry i, then acknowledge now or leave it to the delayed ack. */
    method QueuePacket(i: nat, p: DataPacket, delayed: bool, requested: bool) returns (ack: Option<AckPacket>)
      requires i <= |rq| && ReceiverOk(Enqueue(Rcv(), i, p)) && rwind <= MAX_ACKS
      modifies this`rq, this`lastAcked, this`nSoftAcks
      ensures Received(Rcv(), ack, Queued) == Settle(Enqueue(old(Rcv()), i, p), delayed, requested)
    {
      rq := Insert(rq, i, p);
      nSoftAcks := nSoftAcks + 1;
      ack := None;
      if !delayed && (requested || nSoftAcks > SOFT_ACK_RATE) {
        var a := SendAck();
        ack := Some(a);
      }
    }

    /** rxi_ReceiveDataPacket. */
    method ReceiveDataPacket(p: DataPacket, drop: bool, requested: bool)
      returns (disposition: Disposition, ack: Option<AckPacket>)
      requires Valid()
      modifies this`rq, this`lastAcked, this`nSoftAcks
      ensures Valid()
      ensures Received(Rcv(), ack, disposition) == ReceiveData(old(Rcv()), p, drop, requested)
    {
      ReceiveDataKeeps(Rcv(), p, drop, requested);
      if drop {
        return Dropped, None;
      }
      if p.num == rnext && (rq == [] || rq[0].num != p.num) {
        ScanFinds(Rcv(), p.num);
        EnqueueOk(Rcv(), p);
        ack := QueuePacket(0, p, p.last && !requested, requested);
        return Queued, ack;
      }
      if p.num <= rnext {
        var dup := SendAck();
        return Duplicate, Some(dup);
      }
      if rnext + rwind <= p.num {
        var nack := SendAck();
        return ExceedsWindow, Some(nack);
      }
      var i := FindPlace(p.num);
      if i < |rq| && rq[i].num == p.num {
        var dup := SendAck();
        return Duplicate, Some(dup);
      }
      ScanFinds(Rcv(), p.num);
      EnqueueOk(Rcv(), p);
      ack := QueuePacket(i, p, false, requested);
      return Queued, ack;
    }

    /** The part of rx_Read that takes the next packet off the receive queue. */
    method TakePacket() returns (p: DataPacket, ack: Option<AckPacket>)
      requires Valid() && CanTake(Rcv())
      modifies this`rq, this`rnext, this`lastAcked, this`nSoftAcks
      ensures Valid()
      ensures p == old(rq)[0]
      ensures (Rcv(), ack) == Take(old(Rcv()))
    {
      p, ack := rq[0], None;
      rq := rq[1..];
      rnext := rnext + 1;
      if rnext > lastAcked + rwind / 2 {
        var a := SendAck();
        ack := Some(a);
      }
    }
  }

  lemma ReceiveDataKeeps(r: Receiver, p: DataPacket, drop: bool, requested: bool)
    requires ReceiverOk(r)
    ensures var r' := ReceiveData(r, p, drop, requested).rcv; ReceiverOk(r') && r'.rwind == r.rwind
  {
    ReceiveDataOk(r, p, drop, requested);
  }

  lemma Gap(rq: seq<DataPacket>, i: nat, n: nat)
    requires Sorted(rq) && i < |rq| && n < rq[i].num
    requires 0 < i ==> rq[i - 1].num < n
    ensures !Held(rq, n)
  {
    forall k | 0 <= k < |rq|
      ensures rq[k].num != n
    {
      if k < i {
        assert rq[k].num <= rq[i - 1].num;
      } else {
        assert rq[i].num <= rq[k].num;
      }
    }
  }
}
