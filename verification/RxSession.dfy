/**
 * Both ends of a call put to the stream between them: the writer of RxWriter and the reader of
 * RxReader, with their buffers, against the runs of RxStream.  A call of rx_Write, rx_FlushWrite
 * or rx_Read is a stretch of such a run, and what the reader returns is what the writer was given.
 */
module RxSession {
  import opened RxBase
  import opened RxTransport
  import opened RxStream
  import W = RxWriter
  import R = RxReader

  // ------------------------------------------------ the writer's log in a run

  function Parcels(q: seq<DataPacket>): seq<W.Parcel> {
    seq(|q|, i requires 0 <= i < |q| => W.Parcel(q[i].bytes, q[i].last))
  }

  /** What a stream tells of its writer. */
  function Tell(s: Stream): W.Told {
    W.Told(s.writing, Parcels(s.net.prepared), s.written)
  }

  /** The log with the writer's part in these actions added. */
  function Moves(log: W.Log, acts: seq<Action>): W.Log
    decreases |acts|
  {
    if acts == [] then log
    else Moves(if acts[0].Write? then W.Then(log, acts[0].m) else log, acts[1..])
  }

  lemma {:induction false} MovesConcat(log: W.Log, xs: seq<Action>, ys: seq<Action>)
    ensures Moves(log, xs + ys) == Moves(Moves(log, xs), ys)
    decreases |xs|
  {
    if xs == [] {
      assert xs + ys == ys;
    } else {
      MovesConcat(if xs[0].Write? then W.Then(log, xs[0].m) else log, xs[1..], ys);
      assert (xs + ys)[1..] == xs[1..] + ys;
    }
  }

  lemma {:induction false} SilentMoves(log: W.Log, acts: seq<Action>)
    requires Silent(acts)
    ensures Moves(log, acts) == log
    decreases |acts|
  {
    if acts != [] {
      SilentMoves(log, acts[1..]);
    }
  }

  lemma DoTells(s: Stream, a: Action)
    requires Can(s, a)
    ensures Tell(Do(s, a)) == if a.Write? then W.Add(Tell(s), a.m) else Tell(s)
  {
    if a.Write? && (a.m.Shipped? || a.m.Last?) {
      var p := DataPacket(s.net.snd.tnext, a.m.Last?, W.Pending(s.writing));
      assert Do(s, a).net.prepared == s.net.prepared + [p];
      assert Parcels(s.net.prepared + [p]) == Parcels(s.net.prepared) + [W.Parcel(p.bytes, p.last)];
    } else {
      assert Do(s, a).net.prepared == s.net.prepared;
      assert Parcels(s.net.prepared) + [] == Parcels(s.net.prepared);
    }
  }

  /** In every run the writer's moves, replayed, tell what the stream has been given. */
  lemma {:induction false} LogFollows(log: W.Log, s: Stream, acts: seq<Action>, t: Stream)
    requires Play(s, acts, t) && W.Replay(log) == Some(Tell(s))
    ensures W.Replay(Moves(log, acts)) == Some(Tell(t))
    decreases |acts|
  {
    if acts != [] {
      DoTells(s, acts[0]);
      LogFollows(if acts[0].Write? then W.Then(log, acts[0].m) else log, Do(s, acts[0]), acts[1..], t);
    }
  }

  predicate Extends(early: W.Log, late: W.Log) {
    early == late || (late.Then? && Extends(early, late.before))
  }

  /** One move of the writer, after the others have opened the window where it has to wait for that. */
  lemma MovePlays(s: Stream, m: W.Move) returns (acts: seq<Action>, t: Stream)
    requires RxStream.Inv(s) && W.Allowed(s.writing, m)
    ensures Play(s, acts, t) && RxStream.Inv(t)
    ensures acts != [] && Silent(acts[..|acts| - 1]) && acts[|acts| - 1] == Write(m, {})
    ensures !m.Opened? || WindowOpen(s.net.snd) ==> |acts| == 1
  {
    var wait, u := [], s;
    if m.Opened? && !WindowOpen(s.net.snd) {
      wait, u := WindowReopens(s);
    }
    WriteKeeps(u, m, {});
    PlaySnoc(s, wait, u, Write(m, {}));
    acts, t := wait + [Write(m, {})], Do(u, Write(m, {}));
    assert acts[..|acts| - 1] == wait;
  }

  lemma MoveLogged(log: W.Log, acts: seq<Action>)
    requires acts != [] && Silent(acts[..|acts| - 1]) && acts[|acts| - 1].Write?
    ensures Moves(log, acts) == W.Then(log, acts[|acts| - 1].m)
  {
    var wait, last := acts[..|acts| - 1], [acts[|acts| - 1]];
    SilentMoves(log, wait);
    MovesConcat(log, wait, last);
    assert wait + last == acts && last[1..] == [];
    assert Moves(W.Then(log, last[0].m), []) == W.Then(log, last[0].m);
  }

  /** Whatever moves a writer's log goes on to hold, the stream can go on to make them. */
  lemma {:induction false} LogPlays(early: W.Log, late: W.Log, s: Stream) returns (acts: seq<Action>, t: Stream)
    requires RxStream.Inv(s) && W.Replay(early) == Some(Tell(s))
    requires Extends(early, late) && W.Replay(late).Some?
    ensures Play(s, acts, t) && RxStream.Inv(t) && Moves(early, acts) == late
    decreases late
  {
    acts, t := [], s;
    if early != late {
      var most, u := LogPlays(early, late.before, s);
      LogFollows(early, s, most, u);
      var one, v := MovePlays(u, late.move);
      PlayConcat(s, most, u, one, v);
      MovesConcat(early, most, one);
      MoveLogged(late.before, one);
      acts, t := most + one, v;
    }
  }

  // ------------------------------------------------- moves inside the window

  predicate Writing(acts: seq<Action>) {
    forall i :: 0 <= i < |acts| ==> acts[i].Write?
  }

  /** The log goes on, and each new packet is opened inside the window. */
  predicate Inside(early: W.Log, late: W.Log, limit: nat) {
    || early == late
    || (late.Then? && (late.move.Opened? ==> W.InWindow(W.Handed(late.before), limit)) && Inside(early, late.before, limit))
  }

  lemma {:induction false} ContinuesInside(early: W.Log, late: W.Log, limit: nat)
    requires W.Continues(early, late, limit)
    ensures Inside(early, late, limit)
    decreases late
  {
    if early != late {
      ContinuesInside(early, late.before, limit);
    }
  }

  /** The reader's side and the window are as they were. */
  predicate Aside(s: Stream, t: Stream) {
    && t.read == s.read && t.unread == s.unread && t.net.taken == s.net.taken && t.net.rcv == s.net.rcv
    && t.net.snd.tfirst == s.net.snd.tfirst && t.net.snd.twind == s.net.snd.twind
  }

  /** The transport once these packets have been handed to it. */
  function HandAll(net: System, q: seq<W.Parcel>, due: set<nat>): System {
    if q == [] then net
    else
      var n := HandAll(net, q[..|q| - 1], due);
      if Closed(n) then n else Step(n, DoPrepare(q[|q| - 1].last, q[|q| - 1].bytes, due))
  }

  function Handing(s: Stream, m: W.Move): seq<W.Parcel> {
    if m.Shipped? || m.Last? then [W.Parcel(W.Pending(s.writing), m.Last?)] else []
  }

  lemma HandOneMore(net: System, q: seq<W.Parcel>, s: Stream, m: W.Move, due: set<nat>)
    requires s.net == HandAll(net, q, due) && Can(s, Write(m, due))
    ensures Do(s, Write(m, due)).net == HandAll(net, q + Handing(s, m), due) && Aside(s, Do(s, Write(m, due)))
  {
    var more := q + Handing(s, m);
    if m.Shipped? || m.Last? {
      assert more[..|more| - 1] == q;
    } else {
      assert more == q;
    }
  }

  /** A move inside the window is one action of the stream. */
  lemma MoveInside(log: W.Log, s: Stream, m: W.Move, limit: nat, due: set<nat>)
    requires RxStream.Inv(s) && W.Replay(log) == Some(Tell(s)) && W.Allowed(s.writing, m)
    requires limit == s.net.snd.tfirst + s.net.snd.twind && (m.Opened? ==> W.InWindow(W.Handed(log), limit))
    ensures Can(s, Write(m, due)) && RxStream.Inv(Do(s, Write(m, due)))
    ensures Tell(Do(s, Write(m, due))) == W.Add(Tell(s), m)
  {
    W.HandedCount(log);
    WriteKeeps(s, m, due);
    DoTells(s, Write(m, due));
  }

  lemma OneMoreAction(early: W.Log, before: W.Log, s: Stream, most: seq<Action>, u: Stream, one: Action)
    requires Play(s, most, u) && Moves(early, most) == before && Writing(most) && one.Write? && Can(u, one)
    ensures Play(s, most + [one], Do(u, one)) && Moves(early, most + [one]) == W.Then(before, one.m)
    ensures Writing(most + [one])
  {
    PlaySnoc(s, most, u, one);
    MovesConcat(early, most, [one]);
    MoveLogged(before, [one]);
  }

  /** The stream has gone from s to t by the writer's hand: these packets are new, and nothing else. */
  predicate Wrote(s: Stream, t: Stream, given: seq<W.Parcel>, due: set<nat>) {
    Aside(s, t) && Tell(t).parcels == Tell(s).parcels + given && t.net == HandAll(s.net, given, due)
  }

  lemma WroteOn(s: Stream, u: Stream, given: seq<W.Parcel>, m: W.Move, due: set<nat>)
    requires Wrote(s, u, given, due) && Can(u, Write(m, due)) && Tell(Do(u, Write(m, due))) == W.Add(Tell(u), m)
    ensures Wrote(s, Do(u, Write(m, due)), given + Handing(u, m), due)
  {
    HandOneMore(s.net, given, u, m, due);
    assert Tell(s).parcels + given + Handing(u, m) == Tell(s).parcels + (given + Handing(u, m));
  }

  /**
   * A writer that looks at the window before it opens a packet makes its moves alone: they are a run
   * of Write actions, which leave the reader's side and the window as they were.
   */
  lemma {:induction false} WritesPlay(early: W.Log, late: W.Log, s: Stream, limit: nat, due: set<nat>)
    returns (acts: seq<Action>, t: Stream, given: seq<W.Parcel>)
    requires RxStream.Inv(s) && W.Replay(early) == Some(Tell(s)) && limit == s.net.snd.tfirst + s.net.snd.twind
    requires Inside(early, late, limit) && W.Replay(late).Some?
    ensures Play(s, acts, t) && RxStream.Inv(t) && Moves(early, acts) == late && W.Replay(late) == Some(Tell(t))
    ensures Writing(acts) && Wrote(s, t, given, due)
    decreases late
  {
    acts, t, given := [], s, [];
    if early == late {
      assert Tell(s).parcels + [] == Tell(s).parcels;
    } else {
      var most, u, some := WritesPlay(early, late.before, s, limit, due);
      var one := Write(late.move, due);
      MoveInside(late.before, u, late.move, limit, due);
      WroteOn(s, u, some, late.move, due);
      OneMoreAction(early, late.before, s, most, u, one);
      acts, t, given := most + [one], Do(u, one), some + Handing(u, late.move);
    }
  }

  // -------------------------------------------------------- what passes through

  /** The reader's packets, in buffers of any sizes, carry what was taken from the stream. */
  ghost predicate Received(q: seq<R.Arrival>, taken: seq<DataPacket>) {
    && R.AllWellFormed(q) && |q| <= |taken|
    && forall i :: 0 <= i < |q| ==> R.Payload(q[i]) == taken[i].bytes && q[i].last == taken[i].last
  }

  lemma {:induction false} ReceivedFlow(q: seq<R.Arrival>, taken: seq<DataPacket>)
    requires Received(q, taken)
    ensures R.Payloads(q) == Flow(taken[..|q|])
    decreases |q|
  {
    if q != [] {
      var n := |q| - 1;
      ReceivedFlow(q[..n], taken);
      R.PayloadsSnoc(q[..n], q[n]);
      FlowSnoc(taken[..n], taken[n]);
      assert q == q[..n] + [q[n]] && taken[..|q|] == taken[..n] + [taken[n]];
    }
  }

  lemma {:induction false} ParcelsFlow(q: seq<DataPacket>)
    ensures W.Bytes(Parcels(q)) == Flow(q)
    decreases |q|
  {
    if q != [] {
      ParcelsFlow(q[..|q| - 1]);
      assert Parcels(q)[..|q| - 1] == Parcels(q[..|q| - 1]);
    }
  }

  lemma TakenInOrder(t: Stream, n: nat)
    requires RxStream.Inv(t) && n <= |t.net.taken|
    ensures n <= |t.net.prepared| && t.net.taken[..n] == t.net.prepared[..n]
  {
  }

  lemma LastOfAll(t: Stream, n: nat)
    requires RxStream.Inv(t) && 0 < n <= |t.net.taken| && t.net.taken[n - 1].last
    ensures n == |t.net.prepared| && t.writing.Flushed?
  {
    assert t.net.prepared[n - 1] == t.net.taken[n - 1];
  }

  /** Of what is taken only the last may be empty, so a reader that takes it loses no packet. */
  lemma NoneLost(t: Stream, q: seq<R.Arrival>)
    requires RxStream.Inv(t) && Received(q, t.net.taken)
    ensures R.Lost(q) == 0
  {
    forall i | 0 <= i < |q| - 1
      ensures 0 < q[i].length
    {
      assert t.net.taken[i] == t.net.prepared[i];
      assert |R.Payload(q[i])| == q[i].length;
    }
    R.LostExactly(q);
  }

  /**
   * End to end: in every run, whatever buffers carry the packets handed over and the packets
   * taken, the bytes that come out are a prefix of the bytes that went in, and all of them once
   * the last packet is out; and no packet is lost between one rx_Read and the next.
   */
  lemma EndToEnd(window: nat, client: bool, acts: seq<Action>, t: Stream, shipped: seq<W.Shipment>, q: seq<R.Arrival>)
    requires INITIAL_WINDOW <= window && Play(Begin(window, client), acts, t)
    requires W.Trimmed(shipped) && W.Carry(shipped, Parcels(t.net.prepared))
    requires Received(q, t.net.taken)
    ensures R.Payloads(q) <= W.Payloads(shipped)
    ensures q != [] && q[|q| - 1].last ==> R.Payloads(q) == W.Payloads(shipped) && |q| == |shipped| && t.writing.Flushed?
    ensures R.Lost(q) == 0
  {
    BeginInv(window, client);
    PlayInv(Begin(window, client), acts, t);
    W.CarriedBytes(shipped, Parcels(t.net.prepared));
    ParcelsFlow(t.net.prepared);
    TakenInOrder(t, |q|);
    PassesThrough(t.net.prepared, t.net.taken, q);
    if q != [] && q[|q| - 1].last {
      LastOfAll(t, |q|);
    }
    NoneLost(t, q);
  }

  lemma PassesThrough(prepared: seq<DataPacket>, taken: seq<DataPacket>, q: seq<R.Arrival>)
    requires Received(q, taken) && |q| <= |prepared| && taken[..|q|] == prepared[..|q|]
    ensures R.Payloads(q) <= Flow(prepared)
    ensures |q| == |prepared| ==> R.Payloads(q) == Flow(prepared)
  {
    ReceivedFlow(q, taken);
    FlowPrefix(prepared, |q|);
    if |q| == |prepared| {
      assert prepared[..|q|] == prepared;
    }
  }

  // ----------------------------------------------------- the reader in a run

  /** These packets, in their buffers, are the next in sequence on the receive queue. */
  predicate Available(rcv: Receiver, q: seq<R.Arrival>) {
    && R.AllWellFormed(q) && |q| <= |rcv.rq|
    && forall i :: 0 <= i < |q| ==>
         rcv.rq[i].num == rcv.rnext + i && R.Payload(q[i]) == rcv.rq[i].bytes && q[i].last == rcv.rq[i].last
  }

  predicate Reading(acts: seq<Action>) {
    forall i :: 0 <= i < |acts| ==> acts[i].TakeNext? || acts[i].Get?
  }

  lemma {:induction false} LastPayload(q: seq<R.Arrival>)
    requires R.AllWellFormed(q) && q != []
    ensures q[|q| - 1].length <= |R.Payloads(q)|
  {
    var n := |q| - 1;
    R.PayloadsSnoc(q[..n], q[n]);
    assert q == q[..n] + [q[n]];
  }

  lemma Shared(a: seq<Byte>, b: seq<Byte>, data: seq<Byte>, rest: seq<Byte>)
    requires a + b == data + rest && |a| <= |data|
    ensures data == a + data[|a|..] && b == data[|a|..] + rest
  {
    assert data[..|a|] == (data + rest)[..|a|] == a;
    assert b == (a + b)[|a|..];
  }

  lemma AvailableRest(rcv: Receiver, after: Receiver, q: seq<R.Arrival>)
    requires q != [] && Available(rcv, q) && after.rq == rcv.rq[1..] && after.rnext == rcv.rnext + 1
    ensures Available(after, q[1..])
  {
  }

  lemma TakesNext(s: Stream) returns (t: Stream)
    requires RxStream.Inv(s) && s.unread == [] && CanTake(s.net.rcv)
    ensures t == Do(s, TakeNext) && RxStream.Inv(t)
    ensures t.read == s.read && t.unread == s.net.rcv.rq[0].bytes && t.net.taken == s.net.taken + [s.net.rcv.rq[0]]
    ensures t.net.rcv.rq == s.net.rcv.rq[1..] && t.net.rcv.rnext == s.net.rcv.rnext + 1
  {
    TakeKeeps(s);
    t := Do(s, TakeNext);
  }

  /** The reader empties its packet and takes the next. */
  lemma OnePacket(s: Stream, q: seq<R.Arrival>) returns (acts: seq<Action>, t: Stream)
    requires RxStream.Inv(s) && q != [] && Available(s.net.rcv, q)
    ensures Play(s, acts, t) && RxStream.Inv(t) && Reading(acts) && Available(t.net.rcv, q[1..])
    ensures t.read == s.read + s.unread && t.unread == R.Payload(q[0])
    ensures t.net.taken == s.net.taken + [s.net.rcv.rq[0]] && t.net.rcv.rq == s.net.rcv.rq[1..]
    ensures CanTake(s.net.rcv) && t.net == Step(s.net, DoTake)
  {
    var get := Get(|s.unread|);
    GetKeeps(s, |s.unread|);
    var u := Do(s, get);
    t := TakesNext(u);
    PlayTwo(s, get, u, TakeNext, t);
    acts := [get, TakeNext];
    AvailableRest(s.net.rcv, t.net.rcv, q);
  }

  lemma ReadingOn(s: Stream, one: seq<Action>, u: Stream, more: seq<Action>, t: Stream)
    requires Play(s, one, u) && Reading(one) && Play(u, more, t) && Reading(more)
    ensures Play(s, one + more, t) && Reading(one + more)
  {
    PlayConcat(s, one, u, more, t);
  }

  /** The transport once the reader has taken k packets. */
  function TakeAll(net: System, k: nat): System
    decreases k
  {
    if k == 0 || !CanTake(net.rcv) then net else TakeAll(Step(net, DoTake), k - 1)
  }

  /** Reading n packets more and returning these bytes. */
  predicate ReadTo(s: Stream, t: Stream, n: nat, data: seq<Byte>, rest: seq<Byte>) {
    && t.read == s.read + data && t.unread == rest
    && n <= |s.net.rcv.rq| && t.net.taken == s.net.taken + s.net.rcv.rq[..n] && t.net == TakeAll(s.net, n)
  }

  lemma PartOfPacket(s: Stream, data: seq<Byte>, rest: seq<Byte>) returns (acts: seq<Action>, t: Stream)
    requires s.unread == data + rest
    ensures Play(s, acts, t) && Reading(acts) && ReadTo(s, t, 0, data, rest)
  {
    acts, t := [Get(|data|)], Do(s, Get(|data|));
    PlaySnoc(s, [], s, acts[0]);
    assert [] + acts == acts;
    assert s.unread[..|data|] == data && s.unread[|data|..] == rest;
    assert s.net.taken + s.net.rcv.rq[..0] == s.net.taken;
  }

  lemma ReadFurther(s: Stream, u: Stream, t: Stream, n: nat, left: seq<Byte>, rest: seq<Byte>)
    requires u.read == s.read + s.unread && CanTake(s.net.rcv) && u.net == Step(s.net, DoTake)
    requires u.net.taken == s.net.taken + [s.net.rcv.rq[0]] && u.net.rcv.rq == s.net.rcv.rq[1..]
    requires ReadTo(u, t, n, left, rest)
    ensures ReadTo(s, t, n + 1, s.unread + left, rest)
  {
    assert s.read + s.unread + left == s.read + (s.unread + left);
    TakenFurther(s.net.taken, s.net.rcv.rq, n);
  }

  lemma TakenFurther(taken: seq<DataPacket>, rq: seq<DataPacket>, n: nat)
    requires n < |rq|
    ensures taken + [rq[0]] + rq[1..][..n] == taken + rq[..n + 1]
  {
  }

  /** Once the packet at hand is emptied, the rest comes out of the others. */
  lemma DataLeft(unread: seq<Byte>, q: seq<R.Arrival>, data: seq<Byte>, rest: seq<Byte>) returns (left: seq<Byte>)
    requires R.AllWellFormed(q) && q != [] && unread + R.Payloads(q) == data + rest && |rest| <= q[|q| - 1].length
    ensures data == unread + left && R.Payload(q[0]) + R.Payloads(q[1..]) == left + rest
  {
    LastPayload(q);
    Shared(unread, R.Payloads(q), data, rest);
    left := data[|unread|..];
  }

  /** Whatever rx_Read returns of these packets, the stream can be read to return the same. */
  lemma {:induction false} ReadPlays(s: Stream, q: seq<R.Arrival>, data: seq<Byte>, rest: seq<Byte>)
    returns (acts: seq<Action>, t: Stream)
    requires RxStream.Inv(s) && Available(s.net.rcv, q)
    requires s.unread + R.Payloads(q) == data + rest && (q != [] ==> |rest| <= q[|q| - 1].length)
    ensures Play(s, acts, t) && Reading(acts) && ReadTo(s, t, |q|, data, rest)
    decreases |q|
  {
    if q == [] {
      assert s.unread + [] == s.unread;
      acts, t := PartOfPacket(s, data, rest);
    } else {
      var left := DataLeft(s.unread, q, data, rest);
      var one, u := OnePacket(s, q);
      var more, v := ReadPlays(u, q[1..], left, rest);
      ReadingOn(s, one, u, more, v);
      ReadFurther(s, u, v, |q| - 1, left, rest);
      acts, t := one + more, v;
    }
  }

  // ------------------------------------------------------- calls and runs

  /** The run is one that the writer's moves so far are part of. */
  ghost predicate Writes(w: W.Writer, window: nat, client: bool, acts: seq<Action>, t: Stream)
    reads w
  {
    && INITIAL_WINDOW <= window && Play(Begin(window, client), acts, t)
    && w.Valid() && Moves(W.Begun, acts) == w.log
  }

  /** The run has been read as far as the reader has. */
  ghost predicate Reads(r: R.Reader, t: Stream)
    reads r
  {
    && r.Valid() && r.got == t.read && r.rest == t.unread
    && |r.arrivals| == |t.net.taken| && Received(r.arrivals, t.net.taken)
  }

  /** A call begins at the start of a run. */
  method Connect(window: nat, client: bool, maxUserData: nat -> nat, limitOfData: nat, packetFree: nat -> bool, bufferFree: nat -> bool)
    returns (w: W.Writer, r: R.Reader)
    requires INITIAL_WINDOW <= window && forall i: nat :: 1 <= maxUserData(i) <= limitOfData
    ensures fresh(w) && fresh(r) && Writes(w, window, client, [], Begin(window, client)) && Reads(r, Begin(window, client))
  {
    w := new W.Writer(maxUserData, limitOfData, packetFree, bufferFree);
    r := new R.Reader([]);
    assert R.Payloads([]) == [];
  }

  /** What the network does in between concerns neither. */
  lemma Meanwhile(w: W.Writer, r: R.Reader, window: nat, client: bool, acts: seq<Action>, s: Stream, l: Label)
    requires Writes(w, window, client, acts, s) && Reads(r, s) && Can(s, Net(l))
    ensures Writes(w, window, client, acts + [Net(l)], Do(s, Net(l))) && Reads(r, Do(s, Net(l)))
  {
    PlaySnoc(Begin(window, client), acts, s, Net(l));
    MovesConcat(W.Begun, acts, [Net(l)]);
    SilentMoves(w.log, [Net(l)]);
  }

  lemma WriterTold(w: W.Writer, window: nat, client: bool, acts: seq<Action>, t: Stream)
    requires Writes(w, window, client, acts, t)
    ensures w.told == Tell(t) && w.Written() == t.written
  {
    assert Parcels([]) == [];
    LogFollows(W.Begun, Begin(window, client), acts, t);
  }

  /** The writer's packets are those prepared in the run; the reader's bytes are its bytes. */
  lemma SessionSafe(w: W.Writer, r: R.Reader, window: nat, client: bool, acts: seq<Action>, t: Stream)
    requires Writes(w, window, client, acts, t) && r.Valid() && Received(r.arrivals, t.net.taken)
    ensures R.Payloads(r.arrivals) <= W.Payloads(w.shipped)
    ensures r.got <= w.Written() && r.leaked == 0
    ensures r.receiveDone ==> !w.sending && r.got + r.rest == w.Written()
  {
    WriterTold(w, window, client, acts, t);
    w.WrittenIsShipped();
    EndToEnd(window, client, acts, t, w.shipped, r.arrivals);
  }

  /** A log that goes on inside the window is the moves of a run that goes on. */
  lemma GoesOn(early: W.Log, late: W.Log, limit: nat, due: set<nat>,
               window: nat, client: bool, acts: seq<Action>, s: Stream)
    returns (more: seq<Action>, t: Stream, given: seq<W.Parcel>)
    requires INITIAL_WINDOW <= window && Play(Begin(window, client), acts, s) && Moves(W.Begun, acts) == early
    requires limit == s.net.snd.tfirst + s.net.snd.twind && Inside(early, late, limit) && W.Replay(late).Some?
    ensures Play(s, more, t) && Play(Begin(window, client), acts + more, t) && Moves(W.Begun, acts + more) == late
    ensures Writing(more) && Wrote(s, t, given, due) && (early == late ==> t == s)
  {
    BeginInv(window, client);
    PlayInv(Begin(window, client), acts, s);
    assert Parcels([]) == [];
    LogFollows(W.Begun, Begin(window, client), acts, s);
    more, t, given := [], s, [];
    assert Tell(s).parcels + [] == Tell(s).parcels;
    if early != late {
      more, t, given := WritesPlay(early, late, s, limit, due);
    }
    PlayConcat(Begin(window, client), acts, s, more, t);
    MovesConcat(W.Begun, acts, more);
  }

  lemma WindowTold(w: W.Writer, window: nat, client: bool, acts: seq<Action>, t: Stream)
    requires Writes(w, window, client, acts, t)
    ensures WindowOpen(t.net.snd) <==> W.InWindow(|w.shipped|, t.net.snd.tfirst + t.net.snd.twind)
  {
    WriterTold(w, window, client, acts, t);
    BeginInv(window, client);
    PlayInv(Begin(window, client), acts, t);
  }

  lemma KeepsReading(r: R.Reader, s: Stream, t: Stream)
    requires Reads(r, s) && Aside(s, t)
    ensures Reads(r, t)
  {
  }

  /**
   * rx_Write is a stretch of the run, made by the writer alone.  It sleeps for the window only when
   * the run's window is closed.
   */
  method Send(w: W.Writer, buf: seq<Byte>, limit: nat, ghost due: set<nat>,
              window: nat, client: bool, ghost acts: seq<Action>, ghost s: Stream)
    returns (n: nat, outcome: W.Outcome, ghost more: seq<Action>, ghost t: Stream, ghost given: seq<W.Parcel>)
    requires Writes(w, window, client, acts, s) && limit == s.net.snd.tfirst + s.net.snd.twind
    modifies w
    ensures Play(s, more, t) && Writing(more) && Wrote(s, t, given, due) && Writes(w, window, client, acts + more, t)
    ensures n <= |buf| && t.written == s.written + buf[..n]
    ensures outcome == W.Done ==> n == |buf| && t.writing.Open?
    ensures outcome == W.Refused <==> s.writing.Flushed?
    ensures outcome == W.Refused ==> t == s && n == 0
    ensures outcome == W.Asleep || outcome == W.Starved ==>
              (t.writing.Waiting? || t.writing.Fresh?) && (outcome == W.Asleep <==> !WindowOpen(t.net.snd))
  {
    WriterTold(w, window, client, acts, s);
    n, outcome := w.Write(buf, limit);
    ContinuesInside(old(w.log), w.log, limit);
    more, t, given := GoesOn(old(w.log), w.log, limit, due, window, client, acts, s);
    WriterTold(w, window, client, acts + more, t);
    WindowTold(w, window, client, acts + more, t);
  }

  /** rx_FlushWrite hands over the last packet of the run, or sleeps for a packet with nothing changed. */
  method Finish(w: W.Writer, limit: nat, ghost due: set<nat>,
                window: nat, client: bool, ghost acts: seq<Action>, ghost s: Stream)
    returns (outcome: W.Outcome, ghost more: seq<Action>, ghost t: Stream, ghost given: seq<W.Parcel>)
    requires Writes(w, window, client, acts, s) && limit == s.net.snd.tfirst + s.net.snd.twind
    requires !s.writing.Waiting?
    modifies w
    ensures Play(s, more, t) && Writing(more) && Wrote(s, t, given, due) && Writes(w, window, client, acts + more, t)
    ensures t.written == s.written && (outcome == W.Done || outcome == W.Starved)
    ensures outcome == W.Done ==> t.writing.Flushed?
    ensures outcome == W.Starved ==> t == s && s.writing.Fresh?
  {
    WriterTold(w, window, client, acts, s);
    outcome := w.FlushWrite();
    more, t, given := GoesOn(old(w.log), w.log, limit, due, window, client, acts, s);
    WriterTold(w, window, client, acts + more, t);
  }

  lemma OfferWithin(t: Stream, q: seq<R.Arrival>)
    requires RxStream.Inv(t) && Available(t.net.rcv, q)
    ensures |t.net.taken| + |q| <= |t.net.prepared|
  {
    if q != [] {
      assert Genuine(t.net.prepared, t.net.rcv.rq[|q| - 1]);
    }
  }

  /** What the receive queue offers in sequence ends with the last packet, and nothing is offered after that. */
  lemma OfferEnds(r: R.Reader, window: nat, client: bool, acts: seq<Action>, t: Stream, q: seq<R.Arrival>)
    requires INITIAL_WINDOW <= window && Play(Begin(window, client), acts, t)
    requires Reads(r, t) && Available(t.net.rcv, q)
    ensures R.EndsLast(q, r.receiveDone)
  {
    BeginInv(window, client);
    PlayInv(Begin(window, client), acts, t);
    if r.receiveDone {
      NothingAfter(t, r.arrivals, q);
    }
    forall i | 0 <= i < |q| - 1
      ensures !q[i].last
    {
      NotYetLast(t, q, i);
    }
  }

  lemma NothingAfter(t: Stream, arrivals: seq<R.Arrival>, q: seq<R.Arrival>)
    requires RxStream.Inv(t) && Received(arrivals, t.net.taken) && |arrivals| == |t.net.taken| && Available(t.net.rcv, q)
    requires arrivals != [] && arrivals[|arrivals| - 1].last
    ensures q == []
  {
    OfferWithin(t, q);
    LastOfAll(t, |arrivals|);
  }

  lemma NotYetLast(t: Stream, q: seq<R.Arrival>, i: nat)
    requires RxStream.Inv(t) && Available(t.net.rcv, q) && i < |q| - 1
    ensures !q[i].last
  {
    assert Genuine(t.net.prepared, t.net.rcv.rq[i]) && Genuine(t.net.prepared, t.net.rcv.rq[i + 1]);
  }

  lemma LeftOver(arrivals: seq<R.Arrival>, got: seq<Byte>, rest: seq<Byte>, p: seq<R.Arrival>, data: seq<Byte>, left: seq<Byte>)
    requires R.AllWellFormed(arrivals) && R.AllWellFormed(p) && R.Payloads(arrivals) == got + rest
    requires R.AllWellFormed(arrivals + p) && R.Payloads(arrivals + p) == got + data + left
    ensures rest + R.Payloads(p) == data + left
  {
    R.PayloadsConcat(arrivals, p);
    assert got + rest + R.Payloads(p) == got + (rest + R.Payloads(p));
    R.Cancelled(got, rest + R.Payloads(p), data, left);
  }

  lemma ReceivedMore(arrivals: seq<R.Arrival>, taken: seq<DataPacket>, p: seq<R.Arrival>, rcv: Receiver)
    requires Received(arrivals, taken) && |arrivals| == |taken| && Available(rcv, p)
    ensures Received(arrivals + p, taken + rcv.rq[..|p|])
  {
  }

  lemma RunReadsOn(log: W.Log, p: seq<R.Arrival>, data: seq<Byte>, rest: seq<Byte>,
                   window: nat, client: bool, acts: seq<Action>, s: Stream)
    returns (more: seq<Action>, t: Stream)
    requires INITIAL_WINDOW <= window && Play(Begin(window, client), acts, s) && Moves(W.Begun, acts) == log
    requires Available(s.net.rcv, p)
    requires s.unread + R.Payloads(p) == data + rest && (p != [] ==> |rest| <= p[|p| - 1].length)
    ensures Play(s, more, t) && Reading(more) && ReadTo(s, t, |p|, data, rest)
    ensures Play(Begin(window, client), acts + more, t) && Moves(W.Begun, acts + more) == log
  {
    BeginInv(window, client);
    PlayInv(Begin(window, client), acts, s);
    more, t := ReadPlays(s, p, data, rest);
    PlayConcat(Begin(window, client), acts, s, more, t);
    MovesConcat(W.Begun, acts, more);
    SilentMoves(log, more);
  }

  /** The run goes on as the reader has. */
  lemma ReadsOn(w: W.Writer, r: R.Reader, arrivals: seq<R.Arrival>, p: seq<R.Arrival>, got: seq<Byte>, data: seq<Byte>,
                window: nat, client: bool, acts: seq<Action>, s: Stream)
    returns (more: seq<Action>, t: Stream)
    requires Writes(w, window, client, acts, s) && Available(s.net.rcv, p)
    requires Received(arrivals, s.net.taken) && |arrivals| == |s.net.taken| && got == s.read
    requires R.Payloads(arrivals) == got + s.unread
    requires r.Valid() && r.arrivals == arrivals + p && r.got == got + data
    ensures Play(s, more, t) && Reading(more) && Writes(w, window, client, acts + more, t) && Reads(r, t)
    ensures t.net == TakeAll(s.net, |p|)
  {
    LeftOver(arrivals, got, s.unread, p, data, r.rest);
    more, t := RunReadsOn(w.log, p, data, r.rest, window, client, acts, s);
    ReceivedMore(arrivals, s.net.taken, p, s.net.rcv);
  }

  /** rx_Read against what the receive queue holds in sequence is a stretch of the run. */
  method ReadStretch(w: W.Writer, r: R.Reader, q: seq<R.Arrival>, nbytes: nat,
                     window: nat, client: bool, ghost acts: seq<Action>, ghost s: Stream)
    returns (data: seq<Byte>, outcome: R.Outcome, ghost more: seq<Action>, ghost t: Stream)
    requires Writes(w, window, client, acts, s) && Reads(r, s) && Available(s.net.rcv, q)
    modifies r
    ensures Play(s, more, t) && Reading(more) && Writes(w, window, client, acts + more, t) && Reads(r, t)
    ensures r.got == old(r.got) + data && |data| <= nbytes && t.net == TakeAll(s.net, R.Takes(nbytes, old(r.nLeft), q))
    ensures outcome == R.Full <==> |data| == nbytes
    ensures outcome != R.Full ==> r.rest == [] && (outcome == R.EndOfCall <==> r.receiveDone)
  {
    OfferEnds(r, window, client, acts, s, q);
    ghost var p;
    data, outcome, p := r.ReadOffered(q, nbytes);
    more, t := ReadsOn(w, r, old(r.arrivals), p, old(r.got), data, window, client, acts, s);
  }

  /**
   * rx_Read returns the next bytes of what the writer was given, all of them when it reports the
   * end, and loses no packet.
   */
  method Receive(w: W.Writer, r: R.Reader, q: seq<R.Arrival>, nbytes: nat,
                 window: nat, client: bool, ghost acts: seq<Action>, ghost s: Stream)
    returns (data: seq<Byte>, outcome: R.Outcome, ghost more: seq<Action>, ghost t: Stream)
    requires Writes(w, window, client, acts, s) && Reads(r, s) && Available(s.net.rcv, q)
    modifies r
    ensures Play(s, more, t) && Reading(more) && Writes(w, window, client, acts + more, t) && Reads(r, t)
    ensures old(r.got) + data == r.got <= w.Written() && |data| <= nbytes
    ensures t.net == TakeAll(s.net, R.Takes(nbytes, old(r.nLeft), q))
    ensures outcome == R.Full <==> |data| == nbytes
    ensures outcome == R.EndOfCall ==> r.got == w.Written()
    ensures r.leaked == 0
  {
    data, outcome, more, t := ReadStretch(w, r, q, nbytes, window, client, acts, s);
    SessionSafe(w, r, window, client, acts + more, t);
  }
}
