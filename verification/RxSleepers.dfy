/**
 * The processes that sleep inside rx_Write and rx_Read, with the flags RX_CALL_WAIT_WINDOW_ALLOC
 * and RX_CALL_READER_WAIT that tell rxi_ReceiveAckPacket and rxi_ReceiveDataPacket to wake them:
 * no run of the stream leaves one asleep that could go on.
 */
module RxSleepers {
  import opened RxBase
  import opened RxTransport
  import opened RxStream

  datatype Call = Call(stream: Stream, allocWait: bool, readerWait: bool)

  datatype Deed = Plain(a: Action) | WriterSleeps | ReaderSleeps

  predicate ReceiveDone(s: Stream) {
    s.net.taken != [] && s.net.taken[|s.net.taken| - 1].last
  }

  /** A process that is asleep does nothing. */
  predicate May(x: Call, d: Deed) {
    match d
    case Plain(a) =>
      && Can(x.stream, a) && (a.Write? ==> !x.allocWait) && (a.TakeNext? || a.Get? ==> !x.readerWait)
    case WriterSleeps =>
      !x.allocWait && (x.stream.writing.Fresh? || x.stream.writing.Waiting?) && !WindowOpen(x.stream.net.snd)
    case ReaderSleeps =>
      !x.readerWait && x.stream.unread == [] && !CanTake(x.stream.net.rcv) && !ReceiveDone(x.stream)
  }

  /** rxi_ReceiveAckPacket wakes the writer when it leaves the window open; a client drops a stale ack before. */
  predicate WakesWriter(net: System, a: Action) {
    && a.Net? && a.l.DoDeliverAck? && !(net.client && a.l.a.firstPacket < net.snd.tfirst)
    && var snd := ReceiveAck(net.snd, a.l.a, net.window, net.client);
       snd.tnext < snd.tfirst + snd.twind
  }

  /** rxi_ReceiveDataPacket wakes the reader when it queues the packet that is next in sequence. */
  predicate WakesReader(net: System, a: Action) {
    && a.Net? && a.l.DoDeliverData? && a.l.p.num == net.rcv.rnext
    && ReceiveData(net.rcv, a.l.p, a.l.drop, a.l.requested).disposition == Queued
  }

  function Does(x: Call, d: Deed): Call
    requires May(x, d)
  {
    match d
    case Plain(a) =>
      Call(Do(x.stream, a), x.allocWait && !WakesWriter(x.stream.net, a), x.readerWait && !WakesReader(x.stream.net, a))
    case WriterSleeps => x.(allocWait := true)
    case ReaderSleeps => x.(readerWait := true)
  }

  ghost predicate Goes(x: Call, ds: seq<Deed>, y: Call)
    decreases |ds|
  {
    if ds == [] then x == y
    else May(x, ds[0]) && Goes(Does(x, ds[0]), ds[1..], y)
  }

  function Start(window: nat, client: bool): Call {
    Call(Begin(window, client), false, false)
  }

  // --------------------------------------------------------------- invariant

  /** Who is asleep has to be. */
  ghost predicate Inv(x: Call) {
    && RxStream.Inv(x.stream)
    && (x.allocWait ==> x.stream.writing.Waiting? && !WindowOpen(x.stream.net.snd))
    && (x.readerWait ==> x.stream.unread == [] && !CanTake(x.stream.net.rcv))
  }

  lemma FreshIsOpen(s: Stream)
    requires RxStream.Inv(s) && s.writing.Fresh?
    ensures WindowOpen(s.net.snd)
  {
  }

  /** A step of the network opens the window only where it wakes the writer. */
  lemma OpensAndWakes(net: System, l: Label)
    requires RxTransport.Inv(net) && Enabled(net, l) && !l.DoPrepare? && !l.DoTake?
    requires !WindowOpen(net.snd) && WindowOpen(Step(net, l).snd)
    ensures WakesWriter(net, Net(l))
  {
  }

  /** A step of the network brings the packet next in sequence only where it wakes the reader. */
  lemma BringsAndWakes(net: System, l: Label)
    requires RxTransport.Inv(net) && Enabled(net, l) && !l.DoPrepare? && !l.DoTake?
    requires !CanTake(net.rcv) && CanTake(Step(net, l).rcv)
    ensures WakesReader(net, Net(l))
  {
    if l.DoDeliverData? {
      BroughtNext(net.rcv, l.p, l.drop, l.requested);
    }
  }

  lemma BroughtNext(r: Receiver, p: DataPacket, drop: bool, requested: bool)
    requires ReceiverOk(r) && !CanTake(r) && CanTake(ReceiveData(r, p, drop, requested).rcv)
    ensures p.num == r.rnext && ReceiveData(r, p, drop, requested).disposition == Queued
  {
    ReceiveDataOk(r, p, drop, requested);
    var q := ReceiveData(r, p, drop, requested).rcv.rq;
    assert q[0] in q;
  }

  /** A writer that acts is awake, and leaves the reader's side alone. */
  lemma WriterActs(s: Stream, a: Action)
    requires Can(s, a) && a.Write?
    ensures Do(s, a).unread == s.unread && Do(s, a).net.rcv == s.net.rcv
  {
  }

  /** A reader that acts leaves the window and the writer alone. */
  lemma ReaderActs(s: Stream, a: Action)
    requires Can(s, a) && (a.TakeNext? || a.Get?)
    ensures Do(s, a).writing == s.writing && Do(s, a).net.snd == s.net.snd
  {
  }

  lemma PlainInv(x: Call, a: Action)
    requires Inv(x) && May(x, Plain(a))
    ensures Inv(Does(x, Plain(a)))
  {
    DoInv(x.stream, a);
    match a
    case Write(_, _) => WriterActs(x.stream, a);
    case TakeNext => ReaderActs(x.stream, a);
    case Get(_) => ReaderActs(x.stream, a);
    case Net(l) =>
      if x.allocWait && WindowOpen(Step(x.stream.net, l).snd) { OpensAndWakes(x.stream.net, l); }
      if x.readerWait && CanTake(Step(x.stream.net, l).rcv) { BringsAndWakes(x.stream.net, l); }
  }

  lemma DeedInv(x: Call, d: Deed)
    requires Inv(x) && May(x, d)
    ensures Inv(Does(x, d))
  {
    match d
    case Plain(a) => PlainInv(x, a);
    case WriterSleeps => if x.stream.writing.Fresh? { FreshIsOpen(x.stream); }
    case ReaderSleeps =>
  }

  lemma {:induction false} GoesInv(x: Call, ds: seq<Deed>, y: Call)
    requires Inv(x) && Goes(x, ds, y)
    ensures Inv(y)
    decreases |ds|
  {
    if ds != [] {
      DeedInv(x, ds[0]);
      GoesInv(Does(x, ds[0]), ds[1..], y);
    }
  }

  /**
   * In every run the flag of a writer asleep means a closed window, and the flag of a reader asleep
   * means that the packet next in sequence is not at the head of the receive queue: no wake-up is lost.
   */
  lemma NoLostWakeup(window: nat, client: bool, ds: seq<Deed>, x: Call)
    requires INITIAL_WINDOW <= window && Goes(Start(window, client), ds, x)
    ensures x.allocWait ==> !WindowOpen(x.stream.net.snd)
    ensures x.readerWait ==> x.stream.unread == [] && !CanTake(x.stream.net.rcv)
  {
    BeginInv(window, client);
    GoesInv(Start(window, client), ds, x);
  }

  /** In every run the writer is woken only when the window is open, and the reader only when its packet is there. */
  lemma WokenInTime(window: nat, client: bool, ds: seq<Deed>, x: Call, d: Deed)
    requires INITIAL_WINDOW <= window && Goes(Start(window, client), ds, x) && May(x, d)
    ensures x.allocWait && !Does(x, d).allocWait ==> WindowOpen(Does(x, d).stream.net.snd)
    ensures x.readerWait && !Does(x, d).readerWait ==> CanTake(Does(x, d).stream.net.rcv)
  {
    BeginInv(window, client);
    GoesInv(Start(window, client), ds, x);
    if d.Plain? && d.a.Net? {
      StepWakes(x.stream.net, d.a.l);
    }
  }

  lemma StepWakes(net: System, l: Label)
    requires ReceiverOk(net.rcv) && Enabled(net, l)
    ensures WakesWriter(net, Net(l)) ==> WindowOpen(Step(net, l).snd)
    ensures WakesReader(net, Net(l)) ==> CanTake(Step(net, l).rcv)
  {
    if WakesReader(net, Net(l)) {
      NextIsThere(net.rcv, l.p, l.requested);
    }
  }

  lemma NextIsThere(r: Receiver, p: DataPacket, requested: bool)
    requires ReceiverOk(r) && p.num == r.rnext && ReceiveData(r, p, false, requested).disposition == Queued
    ensures CanTake(ReceiveData(r, p, false, requested).rcv)
  {
    assert Enqueue(r, 0, p).rq[0] == p;
  }

  // ---------------------------------------------------------------- progress

  /** An action of a process that is asleep could only be one that does nothing. */
  lemma AsleepIdles(x: Call, a: Action)
    requires Inv(x) && Can(x.stream, a) && !May(x, Plain(a))
    ensures Do(x.stream, a) == x.stream
  {
    if a.Get? {
      assert x.stream.unread[a.n..] == [] && x.stream.read + x.stream.unread[..a.n] == x.stream.read;
    }
  }

  /** Whatever the stream can do from here, it can do with processes that sleep. */
  lemma {:induction false} Lifted(x: Call, acts: seq<Action>, t: Stream) returns (ds: seq<Deed>, y: Call)
    requires Inv(x) && Play(x.stream, acts, t)
    ensures Goes(x, ds, y) && Inv(y) && y.stream == t
    decreases |acts|
  {
    ds, y := [], x;
    if acts != [] {
      if May(x, Plain(acts[0])) {
        PlainInv(x, acts[0]);
        var u := Does(x, Plain(acts[0]));
        var rest, v := Lifted(u, acts[1..], t);
        ds, y := [Plain(acts[0])] + rest, v;
        assert ds[1..] == rest;
      } else {
        AsleepIdles(x, acts[0]);
        ds, y := Lifted(x, acts[1..], t);
      }
    }
  }

  /** From every reachable state a writer asleep can be woken and go on. */
  lemma WriterWakes(window: nat, client: bool, before: seq<Deed>, x: Call) returns (ds: seq<Deed>, y: Call)
    requires INITIAL_WINDOW <= window && Goes(Start(window, client), before, x) && x.allocWait
    ensures Goes(x, ds, y) && !y.allocWait && y.stream.writing == x.stream.writing && WindowOpen(y.stream.net.snd)
  {
    BeginInv(window, client);
    GoesInv(Start(window, client), before, x);
    var acts, t := WindowReopens(x.stream);
    ds, y := Lifted(x, acts, t);
  }

  /** From every reachable state a reader asleep beside a packet that was handed over can be woken and take it. */
  lemma ReaderWakes(window: nat, client: bool, before: seq<Deed>, x: Call) returns (ds: seq<Deed>, y: Call)
    requires INITIAL_WINDOW <= window && Goes(Start(window, client), before, x) && x.readerWait
    requires |x.stream.net.taken| < |x.stream.net.prepared|
    ensures Goes(x, ds, y) && !y.readerWait && CanTake(y.stream.net.rcv)
  {
    BeginInv(window, client);
    GoesInv(Start(window, client), before, x);
    var acts, t := FillGap(x.stream);
    ds, y := Lifted(x, acts, t);
  }

  /** From every reachable state, whoever is asleep, everything written can come to be read. */
  lemma AllCanComplete(window: nat, client: bool, before: seq<Deed>, x: Call) returns (ds: seq<Deed>, y: Call)
    requires INITIAL_WINDOW <= window && Goes(Start(window, client), before, x)
    ensures Goes(x, ds, y) && y.stream.writing.Flushed? && y.stream.read == y.stream.written == x.stream.written
  {
    BeginInv(window, client);
    GoesInv(Start(window, client), before, x);
    var acts, t := Completes(x.stream);
    ds, y := Lifted(x, acts, t);
  }
}
