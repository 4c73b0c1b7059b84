/**
 * What the two ends of a call owe each other in every run: a packet that is let in arrives, what is
 * due goes out, what has arrived is soon reported, and every acknowledgement opens the window by one.
 */
module RxDelivery {
  import opened RxBase
  import opened RxTransport

  // ------------------------------------------------------------- what arrives

  /** A packet that comes in and is not dropped for want of buffers has arrived, in order or not. */
  lemma DeliveredArrives(window: nat, client: bool, ls: seq<Label>, s: System, p: DataPacket, requested: bool)
    requires INITIAL_WINDOW <= window && Run(Init(window, client), ls, s) && p in s.dataNet
    ensures Arrived(Step(s, DoDeliverData(p, false, requested)).rcv, p.num)
    ensures Step(s, DoDeliverData(p, true, requested)) == s
  {
    InitInv(window, client);
    RunInv(Init(window, client), ls, s);
    ReceiveDataOk(s.rcv, p, false, requested);
  }

  // ------------------------------------------------------------- what goes out

  predicate Sends(l: Label) {
    l.DoPrepare? || l.DoResend? || l.DoDeliverAck?
  }

  /** Every call of rxi_Start puts on the network all that is queued, unacknowledged, in the window and due, and no more. */
  lemma DueGoesOut(window: nat, client: bool, ls: seq<Label>, s: System, l: Label)
    requires INITIAL_WINDOW <= window && Run(Init(window, client), ls, s) && Enabled(s, l) && Sends(l)
    ensures var t := Step(s, l);
            forall p :: p in t.dataNet <==>
              || p in s.dataNet
              || (TxPacket(p, false) in t.snd.tq && p.num < t.snd.tfirst + t.snd.twind && p.num in l.due)
  {
    InitInv(window, client);
    RunInv(Init(window, client), ls, s);
    StepInv(s, l);
    var t := Step(s, l);
    forall p
      ensures p in Start(t.snd, l.due) <==>
                TxPacket(p, false) in t.snd.tq && p.num < t.snd.tfirst + t.snd.twind && p.num in l.due
    {
      StartSends(t.snd, t.prepared, l.due, p);
    }
  }

  lemma StartSends(s: Sender, prepared: seq<DataPacket>, due: set<nat>, p: DataPacket)
    requires Numbered(prepared) && 1 <= s.tfirst && InOrder(s.tq, s.tfirst, prepared)
    ensures p in Start(s, due) <==> TxPacket(p, false) in s.tq && p.num < s.tfirst + s.twind && p.num in due
  {
    BurstExact(s.tq, s.tfirst, s.tfirst + s.twind, due);
    if TxPacket(p, false) in s.tq {
      var i :| 0 <= i < |s.tq| && s.tq[i] == TxPacket(p, false);
      assert s.tq[i].packet == p;
    }
  }

  // -------------------------------------------------------- the window opens

  /** An acknowledgement that the sender does not take for a stale one. */
  predicate Accepted(s: System, l: Label) {
    l.DoDeliverAck? && !(s.client && l.a.firstPacket < s.snd.tfirst)
  }

  function Acceptances(s: System, ls: seq<Label>): nat
    decreases |ls|
  {
    if ls == [] || !Enabled(s, ls[0]) then 0
    else One(Accepted(s, ls[0])) + Acceptances(Step(s, ls[0]), ls[1..])
  }

  lemma StepWidens(s: System, l: Label)
    requires s.snd.twind <= s.window && Enabled(s, l)
    ensures Step(s, l).window == s.window
    ensures Step(s, l).snd.twind == Min(s.window, s.snd.twind + One(Accepted(s, l)))
  {
    if l.DoDeliverAck? {
      ReceiveAckWidens(s.snd, l.a, s.window, s.client);
    }
  }

  lemma {:induction false} RunWidens(s: System, ls: seq<Label>, t: System)
    requires s.snd.twind <= s.window && Run(s, ls, t)
    ensures t.snd.twind == Min(s.window, s.snd.twind + Acceptances(s, ls))
    decreases |ls|
  {
    if ls != [] {
      StepWidens(s, ls[0]);
      RunWidens(Step(s, ls[0]), ls[1..], t);
    }
  }

  /** In every run the transmit window is the initial one and one more for each acknowledgement accepted, up to its limit. */
  lemma WindowGrowsByOne(window: nat, client: bool, ls: seq<Label>, t: System)
    requires INITIAL_WINDOW <= window && Run(Init(window, client), ls, t)
    ensures t.snd.twind == Min(window, INITIAL_WINDOW + Acceptances(Init(window, client), ls))
  {
    InitInv(window, client);
    RunWidens(Init(window, client), ls, t);
  }

  // ------------------------------------------------- what has arrived is reported

  predicate Reports(a: AckPacket, n: nat) {
    n < a.firstPacket || SoftAcked(a, n)
  }

  /** Some acknowledgement on the network says that packet n has arrived. */
  predicate Reported(net: set<AckPacket>, n: nat) {
    exists a :: a in net && Reports(a, n)
  }

  /** All that has arrived is reported but for these. */
  ghost predicate AllBut(s: System, u: set<nat>) {
    forall n: nat :: Arrived(s.rcv, n) && 0 < n ==> Reported(s.ackNet, n) || n in u
  }

  /** The last packet has arrived next in sequence, so nothing more can. */
  predicate Complete(s: System) {
    s.rcv.rq != [] && s.rcv.rq[0].last && s.rcv.rq[0].num == s.rcv.rnext
  }

  predicate Ended(s: System) {
    Closed(s) && s.rcv.rnext == |s.prepared| + 1
  }

  /** What has arrived is reported but for the few packets since the last acknowledgement, and hardly half a window of it softly. */
  ghost predicate Diligent(s: System, u: set<nat>) {
    && AllBut(s, u) && |u| <= s.rcv.nSoftAcks
    && s.rcv.nSoftAcks <= SOFT_ACK_RATE + One(Complete(s) || Ended(s))
    && s.rcv.lastAcked <= s.rcv.rnext <= s.rcv.lastAcked + s.rcv.rwind / 2
    && (s.rcv.lastAcked == 0 || exists a :: a in s.ackNet && a.firstPacket == s.rcv.lastAcked)
    && forall a :: a in s.ackNet ==> a.firstPacket <= s.rcv.lastAcked
  }

  /** An acknowledgement of all that is held leaves nothing unreported. */
  lemma AckReportsAll(r: Receiver, n: nat)
    requires ReceiverOk(r) && Arrived(r, n)
    ensures Reports(AckOf(r), n)
  {
    AckVectorExact(r);
  }

  lemma AnsweredDiligent(s: System, r: Receiver)
    requires ReceiverOk(r) && r.lastAcked <= r.rnext && 1 <= r.rnext
    requires forall a :: a in s.ackNet ==> a.firstPacket <= r.rnext
    ensures Diligent(Answer(s, AckSent(r), Some(AckOf(r))), {})
  {
    var t := Answer(s, AckSent(r), Some(AckOf(r)));
    assert AckOf(r) in t.ackNet && AckOf(r).firstPacket == r.rnext;
    forall n: nat | Arrived(t.rcv, n) && 0 < n
      ensures Reported(t.ackNet, n)
    {
      AckReportsAll(r, n);
    }
  }

  lemma SenderDiligent(s: System, l: Label, u: set<nat>)
    requires RxTransport.Inv(s) && Enabled(s, l) && Sends(l) && Diligent(s, u)
    ensures Diligent(Step(s, l), u)
  {
  }

  /** A packet queued and not acknowledged at once is one more to report. */
  lemma QueuedDiligent(s: System, p: DataPacket, requested: bool, u: set<nat>)
    requires RxTransport.Inv(s) && p in s.dataNet && Diligent(s, u)
    requires var res := ReceiveData(s.rcv, p, false, requested); res.ack.None?
    ensures Diligent(Step(s, DoDeliverData(p, false, requested)), u + {p.num})
  {
    ReceiveDataOk(s.rcv, p, false, requested);
    var t := Step(s, DoDeliverData(p, false, requested));
    forall n: nat | Arrived(t.rcv, n) && 0 < n
      ensures Reported(t.ackNet, n) || n in u + {p.num}
    {
      assert n == p.num || Arrived(s.rcv, n);
    }
  }

  lemma DeliverDiligent(s: System, p: DataPacket, drop: bool, requested: bool, u: set<nat>) returns (v: set<nat>)
    requires RxTransport.Inv(s) && p in s.dataNet && Diligent(s, u)
    ensures Diligent(Step(s, DoDeliverData(p, drop, requested)), v)
  {
    var res := ReceiveData(s.rcv, p, drop, requested);
    if drop {
      v := u;
      assert Step(s, DoDeliverData(p, drop, requested)) == s;
    } else if res.ack.None? {
      v := u + {p.num};
      QueuedDiligent(s, p, requested, u);
    } else {
      v := {};
      var r := AnswerOf(s.rcv, p, requested);
      AnsweredDiligent(s, r);
    }
  }

  /** The receiver that the acknowledgement of a packet is built from. */
  lemma AnswerOf(r: Receiver, p: DataPacket, requested: bool) returns (q: Receiver)
    requires ReceiverOk(r) && 1 <= r.rnext && r.lastAcked <= r.rnext
    requires ReceiveData(r, p, false, requested).ack.Some?
    ensures ReceiverOk(q) && q.rnext == r.rnext && q.lastAcked == r.lastAcked
    ensures var res := ReceiveData(r, p, false, requested);
            res.rcv == AckSent(q) && res.ack == Some(AckOf(q))
  {
    ReceiveDataOk(r, p, false, requested);
    q := r;
    if ReceiveData(r, p, false, requested).disposition == Queued {
      ScanFinds(r, p.num);
      q := Enqueue(r, ScanStop(r.rq, p.num), p);
      EnqueueOk(r, p);
    }
  }

  lemma TakeDiligent(s: System, u: set<nat>) returns (v: set<nat>)
    requires RxTransport.Inv(s) && CanTake(s.rcv) && Diligent(s, u)
    ensures Diligent(Step(s, DoTake), v)
  {
    var r := s.rcv.(rq := s.rcv.rq[1..], rnext := s.rcv.rnext + 1);
    TakeOk(s.rcv, s.prepared, s.window);
    if Take(s.rcv).1.Some? {
      v := {};
      AnsweredDiligent(s.(taken := s.taken + [s.rcv.rq[0]]), r);
    } else {
      v := u;
      TakenArrived(s.rcv);
    }
  }

  lemma TakenArrived(r: Receiver)
    requires CanTake(r)
    ensures forall n: nat :: Arrived(Take(r).0, n) ==> Arrived(r, n)
  {
    forall n: nat | Held(r.rq[1..], n)
      ensures Held(r.rq, n)
    {
      var i :| 0 <= i < |r.rq[1..]| && r.rq[1..][i].num == n;
      assert r.rq[i + 1].num == n;
    }
    assert Held(r.rq, r.rq[0].num);
  }

  lemma StepDiligent(s: System, l: Label, u: set<nat>) returns (v: set<nat>)
    requires RxTransport.Inv(s) && Enabled(s, l) && Diligent(s, u)
    ensures Diligent(Step(s, l), v)
  {
    v := u;
    match l
    case DoDeliverData(p, drop, requested) => v := DeliverDiligent(s, p, drop, requested, u);
    case DoSendAck => v := {}; AnsweredDiligent(s, s.rcv);
    case DoTake => v := TakeDiligent(s, u);
    case _ => SenderDiligent(s, l, u);
  }

  lemma {:induction false} RunDiligent(s: System, ls: seq<Label>, t: System, u: set<nat>) returns (v: set<nat>)
    requires RxTransport.Inv(s) && Run(s, ls, t) && Diligent(s, u)
    ensures Diligent(t, v)
    decreases |ls|
  {
    v := u;
    if ls != [] {
      StepInv(s, ls[0]);
      v := StepDiligent(s, ls[0], u);
      v := RunDiligent(Step(s, ls[0]), ls[1..], t, v);
    }
  }

  /**
   * In every run all that has arrived is reported but for at most SOFT_ACK_RATE packets, and one
   * more once the last packet is in; and a hard acknowledgement is at most half a window behind the reader.
   */
  lemma ReportedInTime(window: nat, client: bool, ls: seq<Label>, t: System) returns (u: set<nat>)
    requires INITIAL_WINDOW <= window && Run(Init(window, client), ls, t)
    ensures forall n: nat :: Arrived(t.rcv, n) && 0 < n ==> Reported(t.ackNet, n) || n in u
    ensures |u| <= SOFT_ACK_RATE + One(Complete(t) || Ended(t))
    ensures window / 2 < t.rcv.rnext ==> exists a :: a in t.ackNet && t.rcv.rnext <= a.firstPacket + window / 2
  {
    InitInv(window, client);
    RunInv(Init(window, client), ls, t);
    u := RunDiligent(Init(window, client), ls, t, {});
  }

  /** A packet that asks for an acknowledgement or comes again is answered at once, with itself in the answer. */
  lemma AnsweredAtOnce(window: nat, client: bool, ls: seq<Label>, s: System, p: DataPacket, requested: bool)
    requires INITIAL_WINDOW <= window && Run(Init(window, client), ls, s) && p in s.dataNet
    requires requested || Arrived(s.rcv, p.num)
    ensures Reported(Step(s, DoDeliverData(p, false, requested)).ackNet, p.num)
  {
    InitInv(window, client);
    RunInv(Init(window, client), ls, s);
    var t := Step(s, DoDeliverData(p, false, requested));
    ReceiveDataOk(s.rcv, p, false, requested);
    AckReportsAll(t.rcv, p.num);
    assert AckOf(t.rcv) in t.ackNet;
  }

  predicate Queues(s: System, l: Label) {
    l.DoDeliverData? && ReceiveData(s.rcv, l.p, l.drop, l.requested).disposition == Queued
  }

  predicate Answers(s: System, l: Label) {
    match l
    case DoDeliverData(p, drop, requested) => ReceiveData(s.rcv, p, drop, requested).ack.Some?
    case DoTake => CanTake(s.rcv) && Take(s.rcv).1.Some?
    case _ => l.DoSendAck?
  }

  function Since(s: System, ls: seq<Label>, k: nat): nat
    decreases |ls|
  {
    if ls == [] || !Enabled(s, ls[0]) then k
    else Since(Step(s, ls[0]), ls[1..], if Answers(s, ls[0]) then 0 else k + One(Queues(s, ls[0])))
  }

  lemma {:induction false} RunCounts(s: System, ls: seq<Label>, t: System)
    requires Run(s, ls, t)
    ensures t.rcv.nSoftAcks == Since(s, ls, s.rcv.nSoftAcks)
    decreases |ls|
  {
    if ls != [] {
      StepCounts(s, ls[0]);
      RunCounts(Step(s, ls[0]), ls[1..], t);
    }
  }

  lemma StepCounts(s: System, l: Label)
    requires Enabled(s, l)
    ensures Step(s, l).rcv.nSoftAcks == if Answers(s, l) then 0 else s.rcv.nSoftAcks + One(Queues(s, l))
  {
  }

  /**
   * In every run the receiver answers a packet at once if and only if it was not dropped and is
   * not new, asks for it, or is one too many since the last acknowledgement and not the last
   * packet in sequence; and a read if and only if half a window has gone by.
   */
  lemma AnswersExactly(window: nat, client: bool, ls: seq<Label>, s: System, l: Label)
    requires INITIAL_WINDOW <= window && Run(Init(window, client), ls, s) && Enabled(s, l)
    ensures l.DoDeliverData? ==>
              (Answers(s, l) <==>
                 !l.drop &&
                 (|| Arrived(s.rcv, l.p.num)
                  || l.requested
                  || (Since(Init(window, client), ls, 0) >= SOFT_ACK_RATE && !(l.p.last && l.p.num == s.rcv.rnext))))
    ensures l.DoTake? ==>
              (Answers(s, l) <==>
                 window / 2 <= s.rcv.rnext && forall a :: a in s.ackNet ==> a.firstPacket + window / 2 <= s.rcv.rnext)
  {
    InitInv(window, client);
    RunInv(Init(window, client), ls, s);
    RunCounts(Init(window, client), ls, s);
    if l.DoDeliverData? {
      ReceiveDataOk(s.rcv, l.p, l.drop, l.requested);
    }
    if l.DoTake? {
      var u := RunDiligent(Init(window, client), ls, s, {});
    }
  }
}
