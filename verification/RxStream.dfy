/**
 * The byte stream of one direction of a call, end to end: the moves of a writer (RxWriter),
 * the window protocol over an unreliable network (RxTransport) and a reader that empties
 * packets, as one transition system.  Here a packet carries its bytes; RxSession puts the
 * writer's and the reader's buffers to it.
 */
module RxStream {
  import opened RxBase
  import opened RxTransport
  import opened RxWriter

  datatype Stream = Stream(net: System, writing: Writing, written: seq<Byte>, unread: seq<Byte>, read: seq<Byte>)

  /** A packet handed over is sent at once with whatever else is due. */
  datatype Action = Write(m: Move, due: set<nat>) | Net(l: Label) | TakeNext | Get(n: nat)

  predicate WindowOpen(s: Sender) {
    s.tnext + 1 <= s.tfirst + s.twind
  }

  predicate Can(s: Stream, a: Action) {
    match a
    case Write(m, _) =>
      Allowed(s.writing, m) && (m.Opened? ==> WindowOpen(s.net.snd)) && (m.Shipped? || m.Last? ==> !Closed(s.net))
    case Net(l) => Enabled(s.net, l) && !l.DoPrepare? && !l.DoTake?
    case TakeNext => s.unread == [] && CanTake(s.net.rcv)
    case Get(n) => n <= |s.unread|
  }

  function Do(s: Stream, a: Action): Stream
    requires Can(s, a)
  {
    match a
    case Write(m, due) =>
      s.(writing := Next(s.writing, m), written := s.written + if m.Put? then m.bytes else [],
         net := if m.Shipped? || m.Last? then Step(s.net, DoPrepare(m.Last?, Pending(s.writing), due)) else s.net)
    case Net(l) => s.(net := Step(s.net, l))
    case TakeNext => s.(net := Step(s.net, DoTake), unread := s.net.rcv.rq[0].bytes)
    case Get(n) => s.(unread := s.unread[n..], read := s.read + s.unread[..n])
  }

  function Begin(window: nat, client: bool): Stream {
    Stream(Init(window, client), Fresh, [], [], [])
  }

  ghost predicate Play(s: Stream, acts: seq<Action>, t: Stream)
    decreases |acts|
  {
    if acts == [] then s == t
    else Can(s, acts[0]) && Play(Do(s, acts[0]), acts[1..], t)
  }

  // --------------------------------------------------------------- invariant

  function Flow(q: seq<DataPacket>): seq<Byte> {
    if q == [] then [] else Flow(q[..|q| - 1]) + q[|q| - 1].bytes
  }

  lemma FlowSnoc(q: seq<DataPacket>, p: DataPacket)
    ensures Flow(q + [p]) == Flow(q) + p.bytes
  {
    assert (q + [p])[..|q|] == q;
  }

  lemma {:induction false} FlowPrefix(q: seq<DataPacket>, n: nat)
    requires n <= |q|
    ensures Flow(q[..n]) <= Flow(q)
    decreases |q|
  {
    if n < |q| {
      FlowPrefix(q[..|q| - 1], n);
      assert q[..|q| - 1][..n] == q[..n];
    } else {
      assert q[..n] == q;
    }
  }

  ghost predicate WritingInv(w: Writing, net: System) {
    && (Closed(net) <==> w.Flushed?)
    && (w.Fresh? ==> net.prepared == [])
    // no sequence number is ever assigned at or beyond tfirst + twind
    && net.snd.tnext <= net.snd.tfirst + net.snd.twind
    && (w.Open? ==> WindowOpen(net.snd))
    // only the last packet may be empty
    && (forall p :: p in net.prepared ==> p.last || p.bytes != [])
  }

  ghost predicate Inv(s: Stream) {
    && RxTransport.Inv(s.net)
    && WritingInv(s.writing, s.net)
    && Flow(s.net.prepared) + Pending(s.writing) == s.written
    && Flow(s.net.taken) == s.read + s.unread
  }

  lemma PrepareKeeps(s: Stream, last: bool, due: set<nat>)
    requires Inv(s) && WindowOpen(s.net.snd) && !Closed(s.net) && (last || Pending(s.writing) != [])
    ensures var net := Step(s.net, DoPrepare(last, Pending(s.writing), due));
            && RxTransport.Inv(net) && (Closed(net) <==> last)
            && net.snd.tnext <= net.snd.tfirst + net.snd.twind
            && (forall p :: p in net.prepared ==> p.last || p.bytes != [])
            && Flow(net.prepared) == s.written && net.taken == s.net.taken
  {
    PrepareInv(s.net, last, Pending(s.writing), due);
    FlowSnoc(s.net.prepared, DataPacket(s.net.snd.tnext, last, Pending(s.writing)));
  }

  /** A step of the network leaves what was handed over and taken alone and never draws the window's end back. */
  lemma NetFacts(net: System, l: Label)
    requires RxTransport.Inv(net) && Enabled(net, l) && !l.DoPrepare? && !l.DoTake?
    ensures var t := Step(net, l);
            && t.prepared == net.prepared && t.taken == net.taken && t.snd.tnext == net.snd.tnext
            && net.snd.tfirst + net.snd.twind <= t.snd.tfirst + t.snd.twind
  {
    if l.DoDeliverAck? {
      ReceiveAckOk(net.snd, net.prepared, l.a, net.window, net.client);
    }
  }

  lemma NetKeeps(s: Stream, l: Label)
    requires Inv(s) && Enabled(s.net, l) && !l.DoPrepare? && !l.DoTake?
    ensures Inv(s.(net := Step(s.net, l)))
    ensures Step(s.net, l).prepared == s.net.prepared && Step(s.net, l).taken == s.net.taken
  {
    StepInv(s.net, l);
    NetFacts(s.net, l);
  }

  lemma TakeFacts(net: System) returns (p: DataPacket, t: System)
    requires RxTransport.Inv(net) && CanTake(net.rcv)
    ensures p == net.rcv.rq[0] && t == Step(net, DoTake)
    ensures RxTransport.Inv(t) && t.taken == net.taken + [p] && t.prepared == net.prepared && t.snd == net.snd
  {
    p, t := net.rcv.rq[0], Step(net, DoTake);
    StepInv(net, DoTake);
  }

  lemma TakeKeeps(s: Stream)
    requires Inv(s) && s.unread == [] && CanTake(s.net.rcv)
    ensures var t := Do(s, TakeNext); Inv(t) && t.net.taken == s.net.taken + [s.net.rcv.rq[0]]
  {
    var p, net := TakeFacts(s.net);
    assert Inv(s.(net := net, unread := p.bytes)) by {
      FlowSnoc(s.net.taken, p);
      assert s.read + [] == s.read;
    }
  }

  lemma OpenKeeps(s: Stream, due: set<nat>)
    requires Inv(s) && Can(s, Write(Opened, due))
    ensures Inv(Do(s, Write(Opened, due)))
  {
    assert s.written + [] == s.written;
  }

  lemma ShipKeeps(s: Stream, m: Move, due: set<nat>)
    requires Inv(s) && Can(s, Write(m, due)) && (m.Shipped? || m.Last?)
    ensures Inv(Do(s, Write(m, due)))
  {
    PrepareKeeps(s, m.Last?, due);
    assert s.written + [] == s.written;
  }

  lemma PutKeeps(s: Stream, bytes: seq<Byte>, due: set<nat>)
    requires Inv(s) && s.writing.Open?
    ensures Inv(Do(s, Write(Put(bytes), due)))
  {
    assert Flow(s.net.prepared) + (s.writing.pending + bytes) == s.written + bytes;
  }

  lemma GetKeeps(s: Stream, n: nat)
    requires Inv(s) && n <= |s.unread|
    ensures Inv(Do(s, Get(n)))
  {
    assert s.read + s.unread[..n] + s.unread[n..] == s.read + s.unread;
  }

  lemma WriteKeeps(s: Stream, m: Move, due: set<nat>)
    requires Inv(s) && Can(s, Write(m, due))
    ensures Inv(Do(s, Write(m, due)))
  {
    match m
    case Opened => OpenKeeps(s, due);
    case Put(bytes) => PutKeeps(s, bytes, due);
    case Shipped => ShipKeeps(s, m, due);
    case Last => ShipKeeps(s, m, due);
  }

  lemma DoInv(s: Stream, a: Action)
    requires Inv(s) && Can(s, a)
    ensures Inv(Do(s, a))
  {
    match a
    case Write(m, due) => WriteKeeps(s, m, due);
    case Net(l) => NetKeeps(s, l);
    case TakeNext => TakeKeeps(s);
    case Get(n) => GetKeeps(s, n);
  }

  lemma BeginInv(window: nat, client: bool)
    requires INITIAL_WINDOW <= window
    ensures Inv(Begin(window, client))
  {
    InitInv(window, client);
  }

  lemma {:induction false} PlayInv(s: Stream, acts: seq<Action>, t: Stream)
    requires Inv(s) && Play(s, acts, t)
    ensures Inv(t)
    decreases |acts|
  {
    if acts != [] {
      DoInv(s, acts[0]);
      PlayInv(Do(s, acts[0]), acts[1..], t);
    }
  }

  // ----------------------------------------------------------- what is read

  /** However the bytes are cut into writes, packets and reads: what is read is a prefix of what was written. */
  lemma ReadsPrefix(window: nat, client: bool, acts: seq<Action>, t: Stream)
    requires INITIAL_WINDOW <= window && Play(Begin(window, client), acts, t)
    ensures t.read <= t.written
    ensures t.writing.Flushed? && |t.net.taken| == |t.net.prepared| && t.unread == [] ==> t.read == t.written
    ensures t.net.taken != [] && t.net.taken[|t.net.taken| - 1].last && t.unread == [] ==> t.read == t.written
  {
    BeginInv(window, client);
    PlayInv(Begin(window, client), acts, t);
    ReadSoFar(t);
  }

  lemma ReadSoFar(t: Stream)
    requires Inv(t)
    ensures t.read <= t.written
    ensures t.writing.Flushed? && |t.net.taken| == |t.net.prepared| && t.unread == [] ==> t.read == t.written
    ensures t.net.taken != [] && t.net.taken[|t.net.taken| - 1].last && t.unread == [] ==> t.read == t.written
  {
    TakenPrefix(t);
    assert t.read <= Flow(t.net.taken);
  }

  /** The packets taken carry a prefix of what was written, and all of it once the last is among them. */
  lemma TakenPrefix(t: Stream)
    requires Inv(t)
    ensures Flow(t.net.taken) <= t.written
    ensures t.writing.Flushed? && |t.net.taken| == |t.net.prepared| ==> Flow(t.net.taken) == t.written
    ensures t.net.taken != [] && t.net.taken[|t.net.taken| - 1].last ==> Flow(t.net.taken) == t.written
  {
    FlowPrefix(t.net.prepared, |t.net.taken|);
    assert t.net.taken == t.net.prepared[..|t.net.taken|];
    if t.net.taken != [] && t.net.taken[|t.net.taken| - 1].last {
      assert |t.net.taken| == |t.net.prepared|;
    }
    if |t.net.taken| == |t.net.prepared| {
      assert t.net.taken == t.net.prepared;
    }
  }

  /** In every run each packet is numbered inside the transmit window, so rxi_Start never stops at the window. */
  lemma NumberedInsideWindow(window: nat, client: bool, acts: seq<Action>, t: Stream)
    requires INITIAL_WINDOW <= window && Play(Begin(window, client), acts, t)
    ensures forall x :: x in t.net.snd.tq ==> x.packet.num < t.net.snd.tfirst + t.net.snd.twind
    ensures forall a, u :: Can(t, a) && u == Do(t, a) && u.net.snd.tnext != t.net.snd.tnext ==>
              t.net.snd.tnext < t.net.snd.tfirst + t.net.snd.twind
  {
    BeginInv(window, client);
    PlayInv(Begin(window, client), acts, t);
    forall x | x in t.net.snd.tq
      ensures x.packet.num < t.net.snd.tfirst + t.net.snd.twind
    {
      var i :| 0 <= i < |t.net.snd.tq| && t.net.snd.tq[i] == x;
      assert x.packet.num == t.net.snd.tfirst + i;
    }
  }

  // ------------------------------------------------------------- more of a run

  lemma {:induction false} PlaySnoc(s: Stream, acts: seq<Action>, t: Stream, a: Action)
    requires Play(s, acts, t) && Can(t, a)
    ensures Play(s, acts + [a], Do(t, a))
    decreases |acts|
  {
    if acts == [] {
      assert [a][1..] == [] && acts + [a] == [a];
      assert Play(Do(t, a), [], Do(t, a));
    } else {
      PlaySnoc(Do(s, acts[0]), acts[1..], t, a);
      assert (acts + [a])[1..] == acts[1..] + [a];
    }
  }

  lemma PlayTwo(s: Stream, a: Action, u: Stream, b: Action, t: Stream)
    requires Can(s, a) && u == Do(s, a) && Can(u, b) && t == Do(u, b)
    ensures Play(s, [a, b], t)
  {
    PlaySnoc(s, [], s, a);
    PlaySnoc(s, [] + [a], u, b);
    assert [] + [a] + [b] == [a, b];
  }

  lemma {:induction false} PlayConcat(s: Stream, xs: seq<Action>, t: Stream, ys: seq<Action>, u: Stream)
    requires Play(s, xs, t) && Play(t, ys, u)
    ensures Play(s, xs + ys, u)
    decreases |ys|
  {
    if ys == [] {
      assert xs + ys == xs;
    } else {
      PlaySnoc(s, xs, t, ys[0]);
      PlayConcat(s, xs + [ys[0]], Do(t, ys[0]), ys[1..], u);
      assert xs + [ys[0]] + ys[1..] == xs + ys;
    }
  }

  /** The writer has no part in it. */
  predicate Silent(acts: seq<Action>) {
    forall i :: 0 <= i < |acts| ==> !acts[i].Write?
  }

  /** Nothing but the timer, the network and the reader: no acknowledgement is sent or comes in. */
  predicate Unacknowledged(acts: seq<Action>) {
    forall i :: 0 <= i < |acts| ==>
      !acts[i].Write? && (acts[i].Net? ==> acts[i].l.DoResend? || acts[i].l.DoDeliverData?)
  }

  // ---------------------------------------------------------------- progress

  /** The sender's timer sends the packet the receiver is missing: it is queued, unacknowledged and in the window. */
  lemma ResendsMissing(s: Stream)
    requires Inv(s) && |s.net.taken| < |s.net.prepared| && !CanTake(s.net.rcv)
    ensures s.net.prepared[s.net.rcv.rnext - 1] in Start(s.net.snd, {s.net.rcv.rnext})
  {
    var snd, n := s.net.snd, s.net.rcv.rnext;
    var i := n - snd.tfirst;
    ScanFinds(s.net.rcv, n);
    assert snd.tq[i].packet == s.net.prepared[n - 1] && snd.tq[i].packet.num == n;
    assert !snd.tq[i].acked;
    BurstExact(snd.tq, snd.tfirst, snd.tfirst + snd.twind, {n});
  }

  lemma Resent(s: Stream) returns (p: DataPacket, a: Action, t: Stream)
    requires Inv(s) && |s.net.taken| < |s.net.prepared| && !CanTake(s.net.rcv)
    ensures Unacknowledged([a]) && Can(s, a) && t == Do(s, a) && Inv(t) && t == s.(net := t.net)
    ensures p in t.net.dataNet && p.num == t.net.rcv.rnext && !CanTake(t.net.rcv)
    ensures t.net.taken == s.net.taken && t.net.prepared == s.net.prepared
  {
    p := s.net.prepared[s.net.rcv.rnext - 1];
    a := Net(DoResend({s.net.rcv.rnext}));
    ResendsMissing(s);
    t := Do(s, a);
    NetKeeps(s, DoResend({s.net.rcv.rnext}));
  }

  lemma Delivered(s: Stream, p: DataPacket) returns (a: Action, t: Stream)
    requires Inv(s) && p in s.net.dataNet && p.num == s.net.rcv.rnext && !CanTake(s.net.rcv)
    ensures Unacknowledged([a]) && Can(s, a) && t == Do(s, a) && Inv(t) && t == s.(net := t.net)
    ensures CanTake(t.net.rcv) && t.net.taken == s.net.taken && t.net.prepared == s.net.prepared
  {
    a := Net(DoDeliverData(p, false, false));
    var net := GapFilled(s.net, p);
    t := s.(net := net);
    NetKeeps(s, DoDeliverData(p, false, false));
  }

  /** Resend and deliver: the receiver's gap is filled. */
  lemma FillGap(s: Stream) returns (acts: seq<Action>, t: Stream)
    requires Inv(s) && |s.net.taken| < |s.net.prepared| && !CanTake(s.net.rcv)
    ensures |acts| == 2 && Play(s, acts, t) && Inv(t) && CanTake(t.net.rcv) && Unacknowledged(acts)
    ensures t == s.(net := t.net) && t.net.taken == s.net.taken && t.net.prepared == s.net.prepared
  {
    var p, resend, u := Resent(s);
    var deliver, v := Delivered(u, p);
    PlayTwo(s, resend, u, deliver, v);
    acts, t := [resend, deliver], v;
    assert acts == [resend] + [deliver];
  }

  /** The reader takes one more packet. */
  lemma Advance(s: Stream) returns (acts: seq<Action>, t: Stream)
    requires Inv(s) && |s.net.taken| < |s.net.prepared| && s.unread == []
    ensures |acts| <= 3 && Play(s, acts, t) && Inv(t) && Unacknowledged(acts)
    ensures t.net.taken == s.net.prepared[..|s.net.taken| + 1] && t.net.prepared == s.net.prepared
    ensures t.written == s.written && t.writing == s.writing
  {
    acts, t := [], s;
    if !CanTake(s.net.rcv) {
      acts, t := FillGap(s);
    }
    TakeKeeps(t);
    PlaySnoc(s, acts, t, TakeNext);
    acts, t := acts + [TakeNext], Do(t, TakeNext);
  }

  /**
   * In every run, wherever the reader has emptied its packet and another is outstanding, at most
   * three steps, none of them an acknowledgement, hand it the next one.
   */
  lemma NextWithoutAck(window: nat, client: bool, before: seq<Action>, s: Stream) returns (acts: seq<Action>, t: Stream)
    requires INITIAL_WINDOW <= window && Play(Begin(window, client), before, s)
    requires |s.net.taken| < |s.net.prepared| && s.unread == []
    ensures |acts| <= 3 && Play(s, acts, t) && Unacknowledged(acts)
    ensures t.net.taken == s.net.prepared[..|s.net.taken| + 1] && t.net.prepared == s.net.prepared
  {
    BeginInv(window, client);
    PlayInv(Begin(window, client), before, s);
    acts, t := Advance(s);
  }

  /** The reader empties the packet it holds. */
  lemma ReadOut(s: Stream) returns (acts: seq<Action>, t: Stream)
    requires Inv(s)
    ensures Play(s, acts, t) && Inv(t) && Unacknowledged(acts) && t.unread == []
    ensures t.net == s.net && t.written == s.written && t.writing == s.writing
  {
    acts, t := [Get(|s.unread|)], Do(s, Get(|s.unread|));
    GetKeeps(s, |s.unread|);
    PlaySnoc(s, [], s, acts[0]);
    assert [] + acts == acts;
  }

  /** The reader catches up with the writer. */
  lemma {:induction false} Drain(s: Stream) returns (acts: seq<Action>, t: Stream)
    requires Inv(s)
    ensures Play(s, acts, t) && Inv(t) && Unacknowledged(acts)
    ensures t.unread == [] && t.net.taken == t.net.prepared == s.net.prepared
    ensures t.written == s.written && t.writing == s.writing
    decreases |s.net.prepared| - |s.net.taken|
  {
    acts, t := ReadOut(s);
    if |s.net.taken| < |s.net.prepared| {
      var more, u := Advance(t);
      PlayConcat(s, acts, t, more, u);
      var last, v := Drain(u);
      PlayConcat(s, acts + more, u, last, v);
      acts, t := acts + more + last, v;
    } else {
      assert s.net.taken == s.net.prepared;
    }
  }

  lemma Reported(s: Stream) returns (t: Stream)
    requires Inv(s)
    ensures Can(s, Net(DoSendAck)) && t == Do(s, Net(DoSendAck)) && Inv(t)
    ensures AckOf(s.net.rcv) in t.net.ackNet && t.net.rcv.rnext == s.net.rcv.rnext && t.net.prepared == s.net.prepared
  {
    var net := Answered(s.net);
    t := s.(net := net);
    NetKeeps(s, DoSendAck);
  }

  lemma Opens(net: System, a: AckPacket)
    requires RxTransport.Inv(net) && a in net.ackNet && a.firstPacket == |net.prepared| + 1
    ensures WindowOpen(Step(net, DoDeliverAck(a, {})).snd)
  {
    ReceiveAckOk(net.snd, net.prepared, a, net.window, net.client);
  }

  /** A hard acknowledgement of everything opens the window. */
  lemma Reopens(s: Stream) returns (acts: seq<Action>, t: Stream)
    requires Inv(s) && s.net.taken == s.net.prepared
    ensures Play(s, acts, t) && Inv(t) && Silent(acts) && WindowOpen(t.net.snd)
    ensures t == s.(net := t.net)
  {
    var a := AckOf(s.net.rcv);
    var u := Reported(s);
    var l := DoDeliverAck(a, {});
    Opens(u.net, a);
    NetKeeps(u, l);
    t := u.(net := Step(u.net, l));
    PlayTwo(s, Net(DoSendAck), u, Net(l), t);
    acts := [Net(DoSendAck), Net(l)];
  }

  /** A writer asleep on a closed window is never stranded: the others can open it. */
  lemma WindowReopens(s: Stream) returns (acts: seq<Action>, t: Stream)
    requires Inv(s)
    ensures Play(s, acts, t) && Inv(t) && Silent(acts) && WindowOpen(t.net.snd)
    ensures t.written == s.written && t.writing == s.writing
  {
    var drain, u := Drain(s);
    var ack, v := Reopens(u);
    PlayConcat(s, drain, u, ack, v);
    acts, t := drain + ack, v;
  }

  /** In every run, whatever the writer waits for, a continuation lets it go on. */
  lemma WriterNeverStranded(window: nat, client: bool, before: seq<Action>, s: Stream) returns (acts: seq<Action>, t: Stream)
    requires INITIAL_WINDOW <= window && Play(Begin(window, client), before, s)
    requires s.writing.Waiting? || s.writing.Fresh?
    ensures Play(s, acts, t) && Silent(acts) && forall due :: Can(t, Write(Opened, due))
    ensures t.written == s.written && t.writing == s.writing
  {
    BeginInv(window, client);
    PlayInv(Begin(window, client), before, s);
    acts, t := WindowReopens(s);
  }

  /** The writer closes the stream, after its wait for the window when it is in one. */
  lemma Close(s: Stream) returns (acts: seq<Action>, t: Stream)
    requires Inv(s)
    ensures Play(s, acts, t) && Inv(t) && t.writing.Flushed? && t.written == s.written
  {
    acts, t := [], s;
    if s.writing.Waiting? {
      acts, t := WindowReopens(s);
      OpenKeeps(t, {});
      PlaySnoc(s, acts, t, Write(Opened, {}));
      acts, t := acts + [Write(Opened, {})], Do(t, Write(Opened, {}));
    }
    if !t.writing.Flushed? {
      ShipKeeps(t, Last, {});
      PlaySnoc(s, acts, t, Write(Last, {}));
      acts, t := acts + [Write(Last, {})], Do(t, Write(Last, {}));
    }
  }

  lemma Completes(s: Stream) returns (acts: seq<Action>, t: Stream)
    requires Inv(s)
    ensures Play(s, acts, t) && t.writing.Flushed? && t.read == t.written == s.written
  {
    var close, u := Close(s);
    var drain, v := Drain(u);
    PlayConcat(s, close, u, drain, v);
    acts, t := close + drain, v;
    ReadSoFar(t);
  }

  /**
   * From every reachable state, wherever the writer is, a network that stops losing packets can
   * deliver everything: the stream is never left in a state that cannot complete.
   */
  lemma CanComplete(window: nat, client: bool, before: seq<Action>, s: Stream) returns (acts: seq<Action>, t: Stream)
    requires INITIAL_WINDOW <= window && Play(Begin(window, client), before, s)
    ensures Play(s, acts, t) && t.writing.Flushed? && t.read == t.written == s.written
  {
    BeginInv(window, client);
    PlayInv(Begin(window, client), before, s);
    acts, t := Completes(s);
  }
}
