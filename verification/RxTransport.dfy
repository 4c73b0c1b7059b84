/**
 * One direction of an Rx call (rx/rx.c, rx/rx_rdwr.c, rx/rx_pkt.c): the sender's
 * transmit queue and window, the receiver's queue and window, and the two kinds of
 * acknowledgement between them.  The functions here say what each operation does to
 * the fields of `rx_call`; class `RxCall.Call` carries them out in place.
 */
module RxTransport {
  import opened RxBase

  // rx_initialWindow, RX_MAXACKS and rxi_SoftAckRate
  const INITIAL_WINDOW: nat := 2
  const MAX_ACKS: nat := 255
  const SOFT_ACK_RATE: nat := 1

  datatype DataPacket = DataPacket(num: nat, last: bool, bytes: seq<Byte>)

  /** firstPacket is the hard acknowledgement, acks the soft one. */
  datatype AckPacket = AckPacket(firstPacket: nat, acks: seq<bool>)

  datatype TxPacket = TxPacket(packet: DataPacket, acked: bool)

  datatype Sender = Sender(tq: seq<TxPacket>, tfirst: nat, tnext: nat, twind: nat)

  datatype Receiver = Receiver(rq: seq<DataPacket>, rnext: nat, rwind: nat, lastAcked: nat, nSoftAcks: nat)

  datatype Disposition = Dropped | Queued | Duplicate | ExceedsWindow

  datatype Received = Received(rcv: Receiver, ack: Option<AckPacket>, disposition: Disposition)

  // ---------------------------------------------------------------- receiver

  predicate Held(rq: seq<DataPacket>, n: nat) {
    exists i :: 0 <= i < |rq| && rq[i].num == n
  }

  ghost predicate Sorted(rq: seq<DataPacket>) {
    forall i, j :: 0 <= i < j < |rq| ==> rq[i].num < rq[j].num
  }

  /** What every operation keeps of the receive queue. */
  ghost predicate ReceiverOk(r: Receiver) {
    && 1 <= r.rwind
    && Sorted(r.rq)
    && forall i :: 0 <= i < |r.rq| ==> r.rnext <= r.rq[i].num < r.rnext + r.rwind
  }

  /** Where the scan of the receive queue stops for sequence number n. */
  function ScanStop(rq: seq<DataPacket>, n: nat): (i: nat)
    ensures i <= |rq|
    ensures forall k :: 0 <= k < i ==> rq[k].num < n
    ensures i < |rq| ==> n <= rq[i].num
  {
    if rq == [] || n <= rq[0].num then 0 else 1 + ScanStop(rq[1..], n)
  }

  /** One entry per sequence number from rnext up to the last packet queued. */
  function AckVector(rq: seq<DataPacket>, rnext: nat): (acks: seq<bool>)
  {
    var n := if rq == [] then 0 else Max(0, rq[|rq| - 1].num + 1 - rnext);
    seq(n, i requires 0 <= i => Held(rq, rnext + i))
  }

  function AckOf(r: Receiver): AckPacket {
    AckPacket(r.rnext, AckVector(r.rq, r.rnext))
  }

  function AckSent(r: Receiver): Receiver {
    r.(lastAcked := Max(r.lastAcked, r.rnext), nSoftAcks := 0)
  }

  function Reply(r: Receiver, disposition: Disposition): Received {
    Received(AckSent(r), Some(AckOf(r)), disposition)
  }

  /** Acknowledge a packet just queued at once, or leave it to the delayed-ack event. */
  function Settle(r: Receiver, delayed: bool, requested: bool): Received {
    if !delayed && (requested || r.nSoftAcks > SOFT_ACK_RATE) then Reply(r, Queued)
    else Received(r, None, Queued)
  }

  function Insert<T>(q: seq<T>, i: nat, x: T): (t: seq<T>)
    requires i <= |q|
    ensures |t| == |q| + 1
    ensures forall k :: 0 <= k < |t| ==> t[k] == if k < i then q[k] else if k == i then x else q[k - 1]
  {
    q[..i] + [x] + q[i..]
  }

  function Enqueue(r: Receiver, i: nat, p: DataPacket): Receiver
    requires i <= |r.rq|
  {
    r.(rq := Insert(r.rq, i, p), nSoftAcks := r.nSoftAcks + 1)
  }

  /** rxi_ReceiveDataPacket; drop is the outcome of the packet quota test. */
  function ReceiveData(r: Receiver, p: DataPacket, drop: bool, requested: bool): Received {
    if drop then
      Received(r, None, Dropped)
    else if p.num == r.rnext then
      if r.rq != [] && r.rq[0].num == p.num then Reply(r, Duplicate)
      else Settle(Enqueue(r, 0, p), p.last && !requested, requested)
    else if p.num < r.rnext then
      Reply(r, Duplicate)
    else if r.rnext + r.rwind <= p.num then
      Reply(r, ExceedsWindow)
    else
      var i := ScanStop(r.rq, p.num);
      if i < |r.rq| && r.rq[i].num == p.num then Reply(r, Duplicate)
      else Settle(Enqueue(r, i, p), false, requested)
  }

  predicate CanTake(r: Receiver) {
    r.rq != [] && r.rq[0].num == r.rnext
  }

  /** rx_Read takes the next packet; a hard ack follows after half a window of silence. */
  function Take(r: Receiver): (res: (Receiver, Option<AckPacket>))
    requires CanTake(r)
  {
    var r' := r.(rq := r.rq[1..], rnext := r.rnext + 1);
    if r'.rnext > r'.lastAcked + r'.rwind / 2 then (AckSent(r'), Some(AckOf(r'))) else (r', None)
  }

  // ------------------------------------------------------------------ sender

  /** rxi_PrepareSendPacket followed by queue_Append. */
  function Prepare(s: Sender, last: bool, bytes: seq<Byte>): Sender {
    s.(tq := s.tq + [TxPacket(DataPacket(s.tnext, last, bytes), false)], tnext := s.tnext + 1)
  }

  /** Number of packets at the head of the queue below the hard acknowledgement. */
  function HardAcked(tq: seq<TxPacket>, first: nat): (n: nat)
    ensures n <= |tq|
    ensures forall k :: 0 <= k < n ==> tq[k].packet.num < first
    ensures n < |tq| ==> first <= tq[n].packet.num
  {
    if tq == [] || first <= tq[0].packet.num then 0 else 1 + HardAcked(tq[1..], first)
  }

  predicate SoftAcked(a: AckPacket, n: nat) {
    a.firstPacket <= n < a.firstPacket + |a.acks| && a.acks[n - a.firstPacket]
  }

  function Marked(tq: seq<TxPacket>, a: AckPacket): (q: seq<TxPacket>) {
    seq(|tq|, i requires 0 <= i < |tq| => tq[i].(acked := SoftAcked(a, tq[i].packet.num)))
  }

  /** rxi_ReceiveAckPacket up to its call of rxi_Start, with the client's test in rxi_ReceivePacket. */
  function ReceiveAck(s: Sender, a: AckPacket, window: nat, client: bool): Sender {
    if client && a.firstPacket < s.tfirst then s
    else
      var n := HardAcked(s.tq, a.firstPacket);
      Sender(Marked(s.tq[n..], a),
             if n == 0 then s.tfirst else s.tq[n - 1].packet.num + 1,
             s.tnext,
             if s.twind < window then s.twind + 1 else s.twind)
  }

  /** What rxi_Start transmits: unacknowledged, inside the window, and due by its timer. */
  function Burst(tq: seq<TxPacket>, limit: nat, due: set<nat>): (sent: seq<DataPacket>)
    ensures forall p :: p in sent ==>
              p.num < limit && p.num in due && exists i :: 0 <= i < |tq| && tq[i] == TxPacket(p, false)
  {
    if tq == [] then []
    else if tq[0].acked then Burst(tq[1..], limit, due)
    else if limit <= tq[0].packet.num then []
    else
      var rest := Burst(tq[1..], limit, due);
      if tq[0].packet.num in due then [tq[0].packet] + rest else rest
  }

  function Start(s: Sender, due: set<nat>): (sent: seq<DataPacket>) {
    Burst(s.tq, s.tfirst + s.twind, due)
  }

  // ------------------------------------------------- both parties and a network

  /**
   * A packet once sent may be delivered at any later time, any number of times or
   * never: the network is the set of packets ever sent.  prepared and taken record
   * what the sender was given and what the reader has had.
   */
  datatype System = System(
    snd: Sender, rcv: Receiver,
    prepared: seq<DataPacket>, taken: seq<DataPacket>,
    dataNet: set<DataPacket>, ackNet: set<AckPacket>,
    window: nat, client: bool)

  datatype Label =
    | DoPrepare(last: bool, bytes: seq<Byte>, due: set<nat>)
    | DoResend(due: set<nat>)
    | DoDeliverData(p: DataPacket, drop: bool, requested: bool)
    | DoDeliverAck(a: AckPacket, due: set<nat>)
    | DoSendAck
    | DoTake

  predicate Closed(s: System) {
    s.prepared != [] && s.prepared[|s.prepared| - 1].last
  }

  predicate Enabled(s: System, l: Label) {
    match l
    case DoPrepare(_, _, _) => !Closed(s)
    case DoResend(_) => true
    case DoDeliverData(p, _, _) => p in s.dataNet
    case DoDeliverAck(a, _) => a in s.ackNet
    case DoSendAck => true
    case DoTake => CanTake(s.rcv)
  }

  function Transmit(s: System, snd: Sender, due: set<nat>): System {
    s.(snd := snd, dataNet := s.dataNet + set p | p in Start(snd, due))
  }

  function Answer(s: System, rcv: Receiver, ack: Option<AckPacket>): System {
    s.(rcv := rcv, ackNet := s.ackNet + if ack.Some? then {ack.value} else {})
  }

  function Step(s: System, l: Label): System
    requires Enabled(s, l)
  {
    match l
    case DoPrepare(last, bytes, due) =>
      Transmit(s.(prepared := s.prepared + [DataPacket(s.snd.tnext, last, bytes)]), Prepare(s.snd, last, bytes), due)
    case DoResend(due) => Transmit(s, s.snd, due)
    case DoDeliverData(p, drop, requested) =>
      var res := ReceiveData(s.rcv, p, drop, requested);
      Answer(s, res.rcv, res.ack)
    case DoDeliverAck(a, due) => Transmit(s, ReceiveAck(s.snd, a, s.window, s.client), due)
    case DoSendAck => Answer(s, AckSent(s.rcv), Some(AckOf(s.rcv)))
    case DoTake =>
      var res := Take(s.rcv);
      Answer(s.(taken := s.taken + [s.rcv.rq[0]]), res.0, res.1)
  }

  /** Both ends as rxi_ResetCall leaves them. */
  function Init(window: nat, client: bool): System {
    System(Sender([], 1, 1, INITIAL_WINDOW), Receiver([], 1, window, 0, 0), [], [], {}, {}, window, client)
  }

  ghost predicate Run(s: System, ls: seq<Label>, t: System)
    decreases |ls|
  {
    if ls == [] then s == t
    else Enabled(s, ls[0]) && Run(Step(s, ls[0]), ls[1..], t)
  }

  // --------------------------------------------------------------- invariant

  ghost predicate Numbered(prepared: seq<DataPacket>) {
    && (forall i :: 0 <= i < |prepared| ==> prepared[i].num == i + 1)
    && (forall i :: 0 <= i < |prepared| - 1 ==> !prepared[i].last)
  }

  /** p is what the sender prepared under p's sequence number. */
  ghost predicate Genuine(prepared: seq<DataPacket>, p: DataPacket) {
    1 <= p.num <= |prepared| && prepared[p.num - 1] == p
  }

  /** The receiver has packet n now, in its queue or already read. */
  ghost predicate Arrived(r: Receiver, n: nat) {
    n < r.rnext || Held(r.rq, n)
  }

  ghost predicate SenderInv(s: Sender, prepared: seq<DataPacket>, window: nat) {
    && 1 <= s.tfirst <= s.tnext == |prepared| + 1
    && InOrder(s.tq, s.tfirst, prepared)
    && INITIAL_WINDOW <= s.twind <= window
  }

  /** The transmit queue holds exactly the prepared packets from number first on. */
  ghost predicate InOrder(tq: seq<TxPacket>, first: nat, prepared: seq<DataPacket>)
    requires 1 <= first
  {
    && |tq| == |prepared| + 1 - first
    && forall i :: 0 <= i < |tq| ==> tq[i].packet == prepared[first - 1 + i]
  }

  ghost predicate ReceiverInv(r: Receiver, prepared: seq<DataPacket>, window: nat) {
    && 1 <= r.rnext <= |prepared| + 1
    && ReceiverOk(r)
    && r.rwind == window
    && forall i :: 0 <= i < |r.rq| ==> Genuine(prepared, r.rq[i])
  }

  ghost predicate AckTrue(a: AckPacket, r: Receiver, window: nat) {
    && 1 <= a.firstPacket <= r.rnext
    && |a.acks| <= window
    && forall n: nat :: SoftAcked(a, n) ==> Arrived(r, n)
  }

  ghost predicate AckedTrue(tq: seq<TxPacket>, r: Receiver) {
    forall i :: 0 <= i < |tq| && tq[i].acked ==> Arrived(r, tq[i].packet.num)
  }

  ghost predicate DataNetInv(net: set<DataPacket>, prepared: seq<DataPacket>, limit: nat) {
    forall p :: p in net ==> Genuine(prepared, p) && p.num < limit
  }

  ghost predicate AckNetInv(net: set<AckPacket>, r: Receiver, window: nat) {
    forall a :: a in net ==> AckTrue(a, r, window)
  }

  ghost predicate Inv(s: System) {
    && Numbered(s.prepared)
    && SenderInv(s.snd, s.prepared, s.window)
    && ReceiverInv(s.rcv, s.prepared, s.window)
    && AckedTrue(s.snd.tq, s.rcv)
    // hard acknowledgements never run ahead of the reader
    && s.snd.tfirst <= s.rcv.rnext
    && s.taken == s.prepared[..s.rcv.rnext - 1]
    && DataNetInv(s.dataNet, s.prepared, s.snd.tfirst + s.snd.twind)
    && AckNetInv(s.ackNet, s.rcv, s.window)
  }

  // ------------------------------------------------------- receiver lemmas

  lemma AckVectorExact(r: Receiver)
    requires ReceiverOk(r)
    ensures |AckVector(r.rq, r.rnext)| <= r.rwind
    ensures forall n: nat :: SoftAcked(AckOf(r), n) <==> Held(r.rq, n)
  {
    var v := AckVector(r.rq, r.rnext);
    forall n: nat | Held(r.rq, n)
      ensures SoftAcked(AckOf(r), n)
    {
      var i :| 0 <= i < |r.rq| && r.rq[i].num == n;
      assert n <= r.rq[|r.rq| - 1].num;
      assert v[n - r.rnext] == Held(r.rq, r.rnext + (n - r.rnext));
    }
  }

  lemma EnqueueContents(r: Receiver, i: nat, p: DataPacket)
    requires i <= |r.rq|
    ensures forall x :: x in Enqueue(r, i, p).rq <==> x in r.rq || x == p
    ensures forall n: nat :: Held(Enqueue(r, i, p).rq, n) <==> Held(r.rq, n) || n == p.num
  {
    var q := Enqueue(r, i, p).rq;
    assert q[i] == p;
    assert forall k :: 0 <= k < i ==> r.rq[k] == q[k];
    assert forall k :: i <= k < |r.rq| ==> r.rq[k] == q[k + 1];
  }

  lemma InsertSorted(q: seq<DataPacket>, i: nat, p: DataPacket)
    requires Sorted(q) && i <= |q|
    requires 0 < i ==> q[i - 1].num < p.num
    requires i < |q| ==> p.num < q[i].num
    ensures Sorted(Insert(q, i, p))
  {
    var t := Insert(q, i, p);
    forall a, b | 0 <= a < b < |t|
      ensures t[a].num < t[b].num
    {
      assert t[a] == if a < i then q[a] else if a == i then p else q[a - 1];
      assert t[b] == if b < i then q[b] else if b == i then p else q[b - 1];
      assert 0 < i && a < i ==> q[a].num <= q[i - 1].num;
      assert i < |q| && i < b ==> q[i].num <= q[b - 1].num;
    }
  }

  lemma EnqueueOk(r: Receiver, p: DataPacket)
    requires ReceiverOk(r) && r.rnext <= p.num < r.rnext + r.rwind
    requires !Held(r.rq, p.num)
    ensures ReceiverOk(Enqueue(r, ScanStop(r.rq, p.num), p))
  {
    var i := ScanStop(r.rq, p.num);
    assert i < |r.rq| ==> r.rq[i].num != p.num;
    InsertSorted(r.rq, i, p);
  }

  lemma SettleOk(r: Receiver, delayed: bool, requested: bool)
    requires ReceiverOk(r)
    ensures var res := Settle(r, delayed, requested);
            && ReceiverOk(res.rcv) && res.rcv.rq == r.rq
            && res.rcv.rnext == r.rnext && res.rcv.rwind == r.rwind
            && (res.ack.Some? ==> res.ack.value == AckOf(res.rcv))
  {
  }

  lemma ReplyOk(r: Receiver, disposition: Disposition)
    requires ReceiverOk(r)
    ensures var res := Reply(r, disposition);
            && ReceiverOk(res.rcv) && res.rcv.rq == r.rq
            && res.rcv.rnext == r.rnext && res.rcv.rwind == r.rwind
            && (res.ack.Some? ==> res.ack.value == AckOf(res.rcv))
  {
  }

  /** What one arriving packet can do to the receiver. */
  lemma ReceiveDataState(r: Receiver, p: DataPacket, drop: bool, requested: bool)
    requires ReceiverOk(r)
    ensures var res := ReceiveData(r, p, drop, requested);
            && ReceiverOk(res.rcv)
            && res.rcv.rnext == r.rnext && res.rcv.rwind == r.rwind
            && (res.ack.Some? ==> res.ack.value == AckOf(res.rcv))
  {
    ScanFinds(r, p.num);
    if Held(r.rq, p.num) || !(r.rnext <= p.num < r.rnext + r.rwind) {
      ReplyOk(r, ReceiveData(r, p, drop, requested).disposition);
    } else {
      EnqueueOk(r, p);
      SettleOk(Enqueue(r, ScanStop(r.rq, p.num), p), p.num == r.rnext && p.last && !requested, requested);
    }
  }

  lemma ReceiveDataVerdict(r: Receiver, p: DataPacket, drop: bool, requested: bool)
    requires ReceiverOk(r)
    ensures var res := ReceiveData(r, p, drop, requested);
            && (res.disposition == ExceedsWindow <==> !drop && r.rnext + r.rwind <= p.num)
            && (res.disposition == Duplicate <==> !drop && (p.num < r.rnext || Held(r.rq, p.num)))
            && (res.disposition == Queued <==> !drop && r.rnext <= p.num < r.rnext + r.rwind && !Held(r.rq, p.num))
            && (res.disposition == Dropped <==> drop)
            && (res.disposition != Queued ==> res.rcv.rq == r.rq)
            && (res.disposition == Queued ==> res.rcv.rq == Enqueue(r, ScanStop(r.rq, p.num), p).rq)
  {
    ScanFinds(r, p.num);
  }

  /** What becomes of a packet, and that a queued one is the only difference it makes. */
  lemma ReceiveDataOk(r: Receiver, p: DataPacket, drop: bool, requested: bool)
    requires ReceiverOk(r)
    ensures var res := ReceiveData(r, p, drop, requested);
            && ReceiverOk(res.rcv)
            && res.rcv.rnext == r.rnext && res.rcv.rwind == r.rwind
            && (res.ack.Some? ==> res.ack.value == AckOf(res.rcv))
            && (res.disposition == ExceedsWindow <==> !drop && r.rnext + r.rwind <= p.num)
            && (res.disposition == Duplicate <==> !drop && (p.num < r.rnext || Held(r.rq, p.num)))
            && (res.disposition == Queued <==> !drop && r.rnext <= p.num < r.rnext + r.rwind && !Held(r.rq, p.num))
            && (res.disposition == Dropped <==> drop)
            && (res.disposition != Queued ==> res.rcv.rq == r.rq)
            && (res.disposition == Queued ==>
                  && (forall x :: x in res.rcv.rq <==> x in r.rq || x == p)
                  && (forall n: nat :: Held(res.rcv.rq, n) <==> Held(r.rq, n) || n == p.num))
  {
    ReceiveDataState(r, p, drop, requested);
    ReceiveDataVerdict(r, p, drop, requested);
    if ReceiveData(r, p, drop, requested).disposition == Queued {
      EnqueueContents(r, ScanStop(r.rq, p.num), p);
    }
  }

  lemma ScanFinds(r: Receiver, n: nat)
    requires ReceiverOk(r)
    ensures var i := ScanStop(r.rq, n); Held(r.rq, n) <==> i < |r.rq| && r.rq[i].num == n
    ensures n <= r.rnext ==> ScanStop(r.rq, n) == 0
    ensures Held(r.rq, n) ==> r.rnext <= n < r.rnext + r.rwind
  {
  }

  /** Later receivers have at least what earlier ones had. */
  ghost predicate Later(r: Receiver, r': Receiver) {
    r.rnext <= r'.rnext && forall n: nat :: Arrived(r, n) ==> Arrived(r', n)
  }

  lemma AnswerOk(s: System, rcv: Receiver, ack: Option<AckPacket>)
    requires AckNetInv(s.ackNet, s.rcv, s.window) && Later(s.rcv, rcv)
    requires ReceiverInv(rcv, s.prepared, s.window)
    requires ack.Some? ==> ack.value == AckOf(rcv)
    ensures AckNetInv(Answer(s, rcv, ack).ackNet, rcv, s.window)
  {
    AckVectorExact(rcv);
  }

  // --------------------------------------------------------- sender lemmas

  lemma HardAckedExact(s: Sender, prepared: seq<DataPacket>, first: nat)
    requires Numbered(prepared) && 1 <= s.tfirst && InOrder(s.tq, s.tfirst, prepared)
    requires first <= |prepared| + 1
    ensures HardAcked(s.tq, first) == Max(0, first - s.tfirst)
  {
    var n := HardAcked(s.tq, first);
    assert n < |s.tq| ==> s.tq[n].packet.num == s.tfirst + n;
    assert 0 < n ==> s.tq[n - 1].packet.num == s.tfirst + n - 1;
  }

  lemma ReceiveAckOk(s: Sender, prepared: seq<DataPacket>, a: AckPacket, window: nat, client: bool)
    requires Numbered(prepared) && SenderInv(s, prepared, window) && a.firstPacket <= s.tnext
    ensures var s' := ReceiveAck(s, a, window, client);
            && SenderInv(s', prepared, window) && s'.tnext == s.tnext
            && s'.tfirst == Max(s.tfirst, a.firstPacket)
            && s.twind <= s'.twind
            && (!client || s.tfirst <= a.firstPacket ==> s'.tq == Marked(s.tq[s'.tfirst - s.tfirst..], a))
  {
    HardAckedExact(s, prepared, a.firstPacket);
    var n := HardAcked(s.tq, a.firstPacket);
    assert 0 < n ==> s.tq[n - 1].packet.num == s.tfirst + n - 1;
    MarkedInOrder(s.tq, s.tfirst, prepared, n, a);
  }

  /** A client leaves a stale acknowledgement alone; any other opens the window by one, up to its limit. */
  lemma ReceiveAckWidens(s: Sender, a: AckPacket, window: nat, client: bool)
    requires s.twind <= window
    ensures var s' := ReceiveAck(s, a, window, client);
            && (client && a.firstPacket < s.tfirst ==> s' == s)
            && (!client || s.tfirst <= a.firstPacket ==> s'.twind == Min(s.twind + 1, window))
  {
  }

  lemma MarkedInOrder(tq: seq<TxPacket>, first: nat, prepared: seq<DataPacket>, n: nat, a: AckPacket)
    requires 1 <= first && InOrder(tq, first, prepared) && n <= |tq|
    ensures InOrder(Marked(tq[n..], a), first + n, prepared)
  {
  }

  /** On a queue in order the scan stops at the window and nowhere else. */
  lemma {:induction false} BurstExact(tq: seq<TxPacket>, first: nat, limit: nat, due: set<nat>)
    requires forall i :: 0 <= i < |tq| ==> tq[i].packet.num == first + i
    ensures forall i :: 0 <= i < |tq| ==>
              (tq[i].packet in Burst(tq, limit, due) <==>
                 !tq[i].acked && tq[i].packet.num < limit && tq[i].packet.num in due)
  {
    if tq != [] {
      var b := Burst(tq, limit, due);
      BurstExact(tq[1..], first + 1, limit, due);
      forall i | 0 <= i < |tq|
        ensures tq[i].packet in b <==> !tq[i].acked && tq[i].packet.num < limit && tq[i].packet.num in due
      {
        if tq[i].packet in b {
          var j :| 0 <= j < |tq| && tq[j] == TxPacket(tq[i].packet, false);
          assert tq[j].packet.num == first + j;
        }
        if 0 < i { assert tq[i] == tq[1..][i - 1]; }
      }
    }
  }

  lemma TransmitOk(s: System, snd: Sender, due: set<nat>)
    requires Numbered(s.prepared) && SenderInv(snd, s.prepared, s.window)
    requires DataNetInv(s.dataNet, s.prepared, snd.tfirst + snd.twind)
    ensures DataNetInv(Transmit(s, snd, due).dataNet, s.prepared, snd.tfirst + snd.twind)
  {
  }

  // ---------------------------------------------------------- preservation

  /** What no step takes back. */
  ghost predicate Grows(s: System, t: System) {
    && s.prepared <= t.prepared
    && s.taken <= t.taken
    && s.snd.tfirst <= t.snd.tfirst
    && s.snd.twind <= t.snd.twind
    && Later(s.rcv, t.rcv)
    && s.dataNet <= t.dataNet && s.ackNet <= t.ackNet
    && s.window == t.window && s.client == t.client
  }

  lemma PrepareInv(s: System, last: bool, bytes: seq<Byte>, due: set<nat>)
    requires Inv(s) && !Closed(s)
    ensures var t := Step(s, DoPrepare(last, bytes, due)); Inv(t) && Grows(s, t)
  {
    var t := Step(s, DoPrepare(last, bytes, due));
    assert SenderInv(t.snd, t.prepared, t.window);
    TransmitOk(s.(prepared := t.prepared), t.snd, due);
  }

  lemma ResendInv(s: System, due: set<nat>)
    requires Inv(s)
    ensures var t := Step(s, DoResend(due)); Inv(t) && Grows(s, t)
  {
    TransmitOk(s, s.snd, due);
  }

  lemma DeliverAckInv(s: System, a: AckPacket, due: set<nat>)
    requires Inv(s) && a in s.ackNet
    ensures var t := Step(s, DoDeliverAck(a, due)); Inv(t) && Grows(s, t)
  {
    var t := Step(s, DoDeliverAck(a, due));
    ReceiveAckOk(s.snd, s.prepared, a, s.window, s.client);
    TransmitOk(s, t.snd, due);
  }

  lemma DeliverDataInv(s: System, p: DataPacket, drop: bool, requested: bool)
    requires Inv(s) && p in s.dataNet
    ensures var t := Step(s, DoDeliverData(p, drop, requested)); Inv(t) && Grows(s, t)
  {
    var res := ReceiveData(s.rcv, p, drop, requested);
    ReceiveDataOk(s.rcv, p, drop, requested);
    forall i | 0 <= i < |res.rcv.rq|
      ensures Genuine(s.prepared, res.rcv.rq[i])
    {
      assert res.rcv.rq[i] in s.rcv.rq || res.rcv.rq[i] == p;
    }
    AnswerOk(s, res.rcv, res.ack);
  }

  lemma SendAckInv(s: System)
    requires Inv(s)
    ensures var t := Step(s, DoSendAck); Inv(t) && Grows(s, t)
  {
    AnswerOk(s, AckSent(s.rcv), Some(AckOf(s.rcv)));
  }

  lemma TakeOk(r: Receiver, prepared: seq<DataPacket>, window: nat)
    requires ReceiverInv(r, prepared, window) && CanTake(r)
    ensures var res := Take(r);
            && ReceiverInv(res.0, prepared, window)
            && res.0.rnext == r.rnext + 1
            && Later(r, res.0)
            && (res.1.Some? ==> res.1.value == AckOf(res.0))
            && r.rq[0] == prepared[r.rnext - 1]
  {
    var q := r.rq[1..];
    assert forall i :: 0 <= i < |q| ==> q[i] == r.rq[i + 1];
    forall n: nat | Held(r.rq, n)
      ensures n == r.rnext || Held(q, n)
    {
      var i :| 0 <= i < |r.rq| && r.rq[i].num == n;
      if 0 < i { assert q[i - 1].num == n; }
    }
  }

  lemma TakeInv(s: System)
    requires Inv(s) && CanTake(s.rcv)
    ensures var t := Step(s, DoTake); Inv(t) && Grows(s, t)
  {
    var res := Take(s.rcv);
    TakeOk(s.rcv, s.prepared, s.window);
    AnswerOk(s, res.0, res.1);
  }

  lemma StepInv(s: System, l: Label)
    requires Inv(s) && Enabled(s, l)
    ensures Inv(Step(s, l)) && Grows(s, Step(s, l))
  {
    match l
    case DoPrepare(last, bytes, due) => PrepareInv(s, last, bytes, due);
    case DoResend(due) => ResendInv(s, due);
    case DoDeliverData(p, drop, requested) => DeliverDataInv(s, p, drop, requested);
    case DoDeliverAck(a, due) => DeliverAckInv(s, a, due);
    case DoSendAck => SendAckInv(s);
    case DoTake => TakeInv(s);
  }

  lemma {:induction false} RunInv(s: System, ls: seq<Label>, t: System)
    requires Inv(s) && Run(s, ls, t)
    ensures Inv(t) && Grows(s, t)
    decreases |ls|
  {
    if ls != [] {
      StepInv(s, ls[0]);
      RunInv(Step(s, ls[0]), ls[1..], t);
    }
  }

  // ----------------------------------------------------------- main results

  lemma InitInv(window: nat, client: bool)
    requires INITIAL_WINDOW <= window
    ensures Inv(Init(window, client))
  {
  }

  /** In every run the reader takes packets 1, 2, ... exactly as they were prepared, and never twice. */
  lemma InOrderExactlyOnce(window: nat, client: bool, ls: seq<Label>, t: System)
    requires INITIAL_WINDOW <= window && Run(Init(window, client), ls, t)
    ensures |t.taken| == t.rcv.rnext - 1 <= |t.prepared|
    ensures t.taken == t.prepared[..|t.taken|]
    ensures forall i :: 0 <= i < |t.taken| ==> t.taken[i].num == i + 1
    ensures Sorted(t.rcv.rq)
    ensures forall p :: p in t.rcv.rq ==> t.rcv.rnext <= p.num < t.rcv.rnext + t.rcv.rwind && p in t.prepared
  {
    InitInv(window, client);
    RunInv(Init(window, client), ls, t);
    forall p | p in t.rcv.rq
      ensures p in t.prepared
    {
      assert Genuine(t.prepared, p);
    }
  }

  /**
   * In every run the packets the sender no longer keeps are packets the reader has
   * taken, and the rest are all in the transmit queue, in order.
   */
  lemma HardAckSafety(window: nat, client: bool, ls: seq<Label>, t: System)
    requires INITIAL_WINDOW <= window && Run(Init(window, client), ls, t)
    ensures 1 <= t.snd.tfirst <= t.rcv.rnext <= t.snd.tnext == |t.prepared| + 1
    ensures t.prepared[..t.snd.tfirst - 1] <= t.taken
    ensures t.prepared == t.prepared[..t.snd.tfirst - 1] + seq(|t.snd.tq|, i requires 0 <= i < |t.snd.tq| => t.snd.tq[i].packet)
    ensures forall x :: x in t.snd.tq && x.acked ==> Arrived(t.rcv, x.packet.num)
  {
    InitInv(window, client);
    RunInv(Init(window, client), ls, t);
  }

  /** No packet ever transmitted is outside the receiver's window when it arrives. */
  ghost predicate WindowAgrees(window: nat, client: bool) {
    forall ls, t, p, drop, requested ::
      Run(Init(window, client), ls, t) && p in t.dataNet ==>
        ReceiveData(t.rcv, p, drop, requested).disposition != ExceedsWindow
  }

  /** The receiver's EXCEEDS_WINDOW answer is dead code exactly when the window admits the slow start. */
  lemma WindowAgreementExact(window: nat, client: bool)
    ensures WindowAgrees(window, client) <==> INITIAL_WINDOW <= window
  {
    if INITIAL_WINDOW <= window {
      forall ls, t, p, drop, requested | Run(Init(window, client), ls, t) && p in t.dataNet
        ensures ReceiveData(t.rcv, p, drop, requested).disposition != ExceedsWindow
      {
        InitInv(window, client);
        RunInv(Init(window, client), ls, t);
        ReceiveDataOk(t.rcv, p, drop, requested);
      }
    } else {
      WindowTooSmall(window, client);
    }
  }

  lemma WindowTooSmall(window: nat, client: bool)
    requires window < INITIAL_WINDOW
    ensures !WindowAgrees(window, client)
  {
    var a, b := DoPrepare(false, [], {1}), DoPrepare(false, [], {2});
    var s0 := Init(window, client);
    var s1 := Step(s0, a);
    var s2 := Step(s1, b);
    var p := DataPacket(2, false, []);
    assert s2.snd.tq == [TxPacket(DataPacket(1, false, []), false), TxPacket(p, false)];
    BurstExact(s2.snd.tq, 1, 3, {2});
    assert p in Start(s2.snd, {2}) by { assert s2.snd.tq[1].packet == p; }
    assert Run(s2, [], s2);
    assert [a, b][1..] == [b] && [b][1..] == [];
    assert Run(s1, [b], s2);
    assert Run(s0, [a, b], s2);
    assert ReceiveData(s2.rcv, p, false, false).disposition == ExceedsWindow;
  }

  /**
   * An acknowledgement built in state s and delivered in any later state t, however
   * late: every packet still queued is marked exactly as the receiver held it in s.
   */
  lemma AckRoundTrip(s: System, ls: seq<Label>, t: System)
    requires Inv(s) && Run(s, ls, t)
    ensures |AckOf(s.rcv).acks| <= s.window
    ensures t.client && s.rcv.rnext < t.snd.tfirst ==>
              ReceiveAck(t.snd, AckOf(s.rcv), t.window, t.client) == t.snd
    ensures !t.client || t.snd.tfirst <= s.rcv.rnext ==>
              var snd := ReceiveAck(t.snd, AckOf(s.rcv), t.window, t.client);
              && snd.tfirst == Max(t.snd.tfirst, s.rcv.rnext)
              && forall i :: 0 <= i < |snd.tq| ==> (snd.tq[i].acked <==> Held(s.rcv.rq, snd.tq[i].packet.num))
  {
    RunInv(s, ls, t);
    AckVectorExact(s.rcv);
    ReceiveAckOk(t.snd, t.prepared, AckOf(s.rcv), t.window, t.client);
  }

  lemma FreshAckReleases(s: System)
    requires Inv(s) && s.rcv.rnext <= |s.prepared| && !CanTake(s.rcv)
    ensures var snd := ReceiveAck(s.snd, AckOf(s.rcv), s.window, s.client);
            s.prepared[s.rcv.rnext - 1] in Start(snd, {s.rcv.rnext})
  {
    var a, n := AckOf(s.rcv), s.rcv.rnext;
    var snd := ReceiveAck(s.snd, a, s.window, s.client);
    ReceiveAckOk(s.snd, s.prepared, a, s.window, s.client);
    AckVectorExact(s.rcv);
    ScanFinds(s.rcv, n);
    assert snd.tfirst == n && snd.tq[0].packet == s.prepared[n - 1] && !snd.tq[0].acked;
    BurstExact(snd.tq, n, snd.tfirst + snd.twind, {n});
  }

  lemma Retransmitted(s: System) returns (t: System)
    requires Inv(s) && s.rcv.rnext <= |s.prepared| && !CanTake(s.rcv) && AckOf(s.rcv) in s.ackNet
    ensures t == Step(s, DoDeliverAck(AckOf(s.rcv), {s.rcv.rnext}))
    ensures Inv(t) && t.rcv == s.rcv && t.taken == s.taken && t.prepared == s.prepared
    ensures s.prepared[s.rcv.rnext - 1] in t.dataNet
  {
    t := Step(s, DoDeliverAck(AckOf(s.rcv), {s.rcv.rnext}));
    FreshAckReleases(s);
    DeliverAckInv(s, AckOf(s.rcv), {s.rcv.rnext});
  }

  lemma GapFilled(s: System, p: DataPacket) returns (t: System)
    requires Inv(s) && p in s.dataNet && p.num == s.rcv.rnext && !CanTake(s.rcv)
    ensures t == Step(s, DoDeliverData(p, false, false))
    ensures Inv(t) && CanTake(t.rcv) && t.taken == s.taken && t.prepared == s.prepared
  {
    t := Step(s, DoDeliverData(p, false, false));
    DeliverDataInv(s, p, false, false);
  }

  lemma {:induction false} RunSnoc(s: System, ls: seq<Label>, t: System, l: Label)
    requires Run(s, ls, t) && Enabled(t, l)
    ensures Run(s, ls + [l], Step(t, l))
    decreases |ls|
  {
    if ls == [] {
      assert [l][1..] == [];
      assert Run(Step(t, l), [], Step(t, l));
      assert ls + [l] == [l];
    } else {
      RunSnoc(Step(s, ls[0]), ls[1..], t, l);
      assert (ls + [l])[1..] == ls[1..] + [l];
    }
  }

  lemma Answered(s: System) returns (t: System)
    requires Inv(s)
    ensures t == Step(s, DoSendAck) && Inv(t)
    ensures AckOf(t.rcv) == AckOf(s.rcv) && AckOf(s.rcv) in t.ackNet && t.rcv.rnext == s.rcv.rnext && t.rcv.rq == s.rcv.rq
    ensures t.taken == s.taken && t.prepared == s.prepared
  {
    SendAckInv(s);
    t := Step(s, DoSendAck);
  }

  lemma RunThree(s: System, k: Label, s1: System, l: Label, s2: System, m: Label, t: System)
    requires Enabled(s, k) && s1 == Step(s, k) && Enabled(s1, l) && s2 == Step(s1, l) && Enabled(s2, m) && t == Step(s2, m)
    ensures Run(s, [k, l, m], t)
  {
    RunSnoc(s, [], s, k);
    RunSnoc(s, [] + [k], s1, l);
    RunSnoc(s, [] + [k] + [l], s2, m);
    assert [] + [k] + [l] + [m] == [k, l, m];
  }

  /** Acknowledge, retransmit, deliver: the receiver's gap is filled. */
  lemma Refill(s: System) returns (more: seq<Label>, t: System)
    requires Inv(s) && s.rcv.rnext <= |s.prepared| && !CanTake(s.rcv)
    ensures |more| == 3 && Run(s, more, t)
    ensures Inv(t) && CanTake(t.rcv) && t.taken == s.taken && t.prepared == s.prepared
  {
    var a, p := AckOf(s.rcv), s.prepared[s.rcv.rnext - 1];
    var s1 := Answered(s);
    var s2 := Retransmitted(s1);
    t := GapFilled(s2, p);
    more := [DoSendAck, DoDeliverAck(a, {s.rcv.rnext}), DoDeliverData(p, false, false)];
    RunThree(s, more[0], s1, more[1], s2, more[2], t);
  }

  /**
   * No run wedges the call: wherever a packet is outstanding, at most four steps of a
   * network that stops losing packets hand the reader its next one.
   */
  lemma NeverStuck(window: nat, client: bool, ls: seq<Label>, s: System) returns (more: seq<Label>, t: System)
    requires INITIAL_WINDOW <= window && Run(Init(window, client), ls, s)
    requires |s.taken| < |s.prepared|
    ensures |more| <= 4 && Run(s, more, t)
    ensures t.prepared == s.prepared && t.taken == s.taken + [s.prepared[|s.taken|]]
  {
    InitInv(window, client);
    RunInv(Init(window, client), ls, s);
    more, t := Proceed(s);
  }

  lemma Proceed(s: System) returns (more: seq<Label>, t: System)
    requires Inv(s) && |s.taken| < |s.prepared|
    ensures |more| <= 4 && Run(s, more, t)
    ensures t.prepared == s.prepared && t.taken == s.taken + [s.prepared[|s.taken|]]
  {
    var u := s;
    more := [];
    if !CanTake(s.rcv) {
      more, u := Refill(s);
    }
    TakeOk(u.rcv, u.prepared, u.window);
    RunSnoc(s, more, u, DoTake);
    more, t := more + [DoTake], Step(u, DoTake);
  }
}
