/**
 * The writing half of rx/rx_rdwr.c: rx_Write copies the caller's bytes through a cursor
 * into the buffers of the current packet, extends the packet or hands it over when it
 * is full, and rx_FlushWrite hands over the rest as the last packet.  limit is the end of the
 * transmit window, tfirst + twind, which nothing changes while the process runs.  Where rx_Write
 * sleeps for the window or for a free packet, the method returns with outcome Asleep or Starved;
 * writing the rest goes on from there.  The window, once open, stays open until the next packet
 * is handed over, so it may be looked at again after the sleep for a packet.
 */
module RxWriter {
  import opened RxBase
  import opened RxIovec

  /** A packet handed to the transport: its trimmed buffers and whether it is the last. */
  datatype Shipment = Shipment(vec: Buffers, last: bool)

  ghost function Payloads(q: seq<Shipment>): (s: seq<Byte>)
    requires Trimmed(q)
  {
    if q == [] then [] else Payloads(q[..|q| - 1]) + Data(q[|q| - 1].vec)
  }

  // ------------------------------------------------------ the writer's moves

  /** Where the writing process is: rx_Write waits for the window before it opens a packet. */
  datatype Writing = Fresh | Waiting | Open(pending: seq<Byte>) | Flushed

  /** What the writer does that the transport or the reader can tell. */
  datatype Move = Opened | Put(bytes: seq<Byte>) | Shipped | Last

  predicate Allowed(w: Writing, m: Move) {
    match m
    case Opened => w.Fresh? || w.Waiting?
    case Put(_) => w.Open?
    case Shipped => w.Open? && w.pending != []
    case Last => w.Open? || w.Fresh?
  }

  function Next(w: Writing, m: Move): Writing
    requires Allowed(w, m)
  {
    match m
    case Opened => Open([])
    case Put(bytes) => Open(w.pending + bytes)
    case Shipped => Waiting
    case Last => Flushed
  }

  function Pending(w: Writing): seq<Byte> {
    if w.Open? then w.pending else []
  }

  /** A packet without its buffers. */
  datatype Parcel = Parcel(bytes: seq<Byte>, last: bool)

  /** What a log tells: where the writer is, what it has handed over and what was written. */
  datatype Told = Told(writing: Writing, parcels: seq<Parcel>, written: seq<Byte>)

  const NOTHING := Told(Fresh, [], [])

  function Add(t: Told, m: Move): Told
    requires Allowed(t.writing, m)
  {
    Told(Next(t.writing, m),
         t.parcels + if m.Shipped? || m.Last? then [Parcel(Pending(t.writing), m.Last?)] else [],
         t.written + if m.Put? then m.bytes else [])
  }

  lemma OpenedAdds(t: Told)
    requires Allowed(t.writing, Opened)
    ensures Add(t, Opened) == Told(Open([]), t.parcels, t.written)
  {
  }

  datatype Log = Begun | Then(before: Log, move: Move)

  /** The moves one after the other; None when one was not allowed. */
  function Replay(log: Log): Option<Told> {
    match log
    case Begun => Some(NOTHING)
    case Then(before, m) =>
      match Replay(before)
      case None => None
      case Some(t) => if Allowed(t.writing, m) then Some(Add(t, m)) else None
  }

  /** Packets handed over. */
  function Handed(log: Log): nat {
    match log
    case Begun => 0
    case Then(before, m) => Handed(before) + if m.Shipped? || m.Last? then 1 else 0
  }

  lemma {:induction false} HandedCount(log: Log)
    ensures match Replay(log) case None => true case Some(t) => |t.parcels| == Handed(log)
    decreases log
  {
    if log.Then? {
      HandedCount(log.before);
    }
  }

  /** rx_Write's test before it opens a packet, tnext + 1 <= tfirst + twind, where tnext is handed + 1. */
  predicate InWindow(handed: nat, limit: nat) {
    handed + 2 <= limit
  }

  /** The log goes on: packets are opened inside the window only, and the last is not among the new moves. */
  predicate Continues(early: Log, late: Log, limit: nat) {
    || early == late
    || (late.Then? && !late.move.Last? && (late.move.Opened? ==> InWindow(Handed(late.before), limit)) &&
        Continues(early, late.before, limit))
  }

  lemma {:induction false} ContinuesFurther(a: Log, b: Log, c: Log, limit: nat)
    requires Continues(a, b, limit) && Continues(b, c, limit)
    ensures Continues(a, c, limit)
    decreases c
  {
    if b != c {
      ContinuesFurther(a, b, c.before, limit);
    }
  }

  function Bytes(parcels: seq<Parcel>): seq<Byte> {
    if parcels == [] then [] else Bytes(parcels[..|parcels| - 1]) + parcels[|parcels| - 1].bytes
  }

  /** What was written is what was handed over and what is pending. */
  lemma {:induction false} ReplayWritten(log: Log)
    ensures match Replay(log) case None => true case Some(t) => Bytes(t.parcels) + Pending(t.writing) == t.written
    decreases log
  {
    if log.Then? {
      ReplayWritten(log.before);
      if Replay(log).Some? {
        AddWritten(Replay(log.before).value, log.move);
      }
    }
  }

  lemma AddWritten(t: Told, m: Move)
    requires Allowed(t.writing, m) && Bytes(t.parcels) + Pending(t.writing) == t.written
    ensures var u := Add(t, m); Bytes(u.parcels) + Pending(u.writing) == u.written
  {
    if m.Shipped? || m.Last? {
      var p := Parcel(Pending(t.writing), m.Last?);
      assert (t.parcels + [p])[..|t.parcels|] == t.parcels;
    } else {
      assert t.parcels + [] == t.parcels;
      assert m.Put? ==> Bytes(t.parcels) + (Pending(t.writing) + m.bytes) == t.written + m.bytes;
    }
  }

  predicate Trimmed(q: seq<Shipment>) {
    forall i :: 0 <= i < |q| ==> q[i].vec != [] && (q[i].last || Data(q[i].vec) != [])
  }

  predicate Small(parcels: seq<Parcel>, limit: nat) {
    forall i :: 0 <= i < |parcels| ==> |parcels[i].bytes| <= limit
  }

  /** The packets handed over carry what the parcels say. */
  ghost predicate Carry(q: seq<Shipment>, parcels: seq<Parcel>)
    requires Trimmed(q)
  {
    |q| == |parcels| && forall i :: 0 <= i < |q| ==> parcels[i] == Parcel(Data(q[i].vec), q[i].last)
  }

  datatype Outcome = Done | Asleep | Starved | Refused

  class Writer {
    var sending: bool // the mode is RX_MODE_SENDING
    var open: bool // currentPacket is not null
    var vec: Buffers
    var length: nat
    var curvec: nat
    var curpos: nat
    var nFree: nat
    var shipped: seq<Shipment>
    ghost var pending: seq<Byte> // bytes stored in the current packet
    ghost var log: Log
    ghost var told: Told

    // What the rest of the system answers: rx_MaxUserDataSize, which may change with every
    // acknowledgement, and whether a packet and a continuation buffer are free.  Each
    // question is answered by the next value of its function.
    const maxUserData: nat -> nat
    const limitOfData: nat // what maxUserData never exceeds
    const packetFree: nat -> bool
    const bufferFree: nat -> bool
    var asked: nat

    /** The cursor stands where the stored bytes end. */
    ghost predicate Stored()
      reads this
    {
      && 2 <= |vec| <= MAX_WVECS
      && (forall k :: 1 <= k < |vec| ==> 0 < |vec[k]|)
      && nFree <= length <= |Data(vec)|
      && 1 <= curvec <= |vec|
      && Offset(vec, curvec) + curpos == length - nFree
      && pending == Data(vec)[..length - nFree]
    }

    ghost predicate Filling()
      reads this
    {
      Stored() && if curvec < |vec| then curpos < |vec[curvec]| else curpos == 0
    }

    ghost predicate Valid()
      reads this
    {
      && Sizes() && (open ==> length <= limitOfData) && Small(told.parcels, limitOfData)
      && (if open then Filling() && 0 < length else nFree == 0 && pending == [])
      && (open ==> sending)
      && Logged()
    }

    ghost predicate Sizes()
      reads this
    {
      forall t: nat :: 1 <= maxUserData(t) <= limitOfData
    }

    ghost function Stage(): Writing
      reads this
    {
      if open then Open(pending) else if !sending then Flushed else if shipped == [] then Fresh else Waiting
    }

    /**
     * The log tells where the writer is and what it has handed over; only the last packet
     * may be empty, since the reader has no use for other empty ones.
     */
    ghost predicate Logged()
      reads this
    {
      Trimmed(shipped) && Replay(log) == Some(told) && told.writing == Stage() && Carry(shipped, told.parcels)
    }

    /** Everything written so far. */
    ghost function Written(): seq<Byte>
      reads this
    {
      told.written
    }

    /** No packet handed over is longer than the peer takes. */
    lemma ShippedFit()
      requires Valid()
      ensures forall i :: 0 <= i < |shipped| ==> shipped[i].vec != [] && |Data(shipped[i].vec)| <= limitOfData
    {
      assert forall i :: 0 <= i < |shipped| ==> told.parcels[i].bytes == Data(shipped[i].vec);
    }

    /** It is in the packets handed over, then in the current one. */
    lemma WrittenIsShipped()
      requires Valid()
      ensures Written() == Payloads(shipped) + pending
    {
      ReplayWritten(log);
      CarriedBytes(shipped, told.parcels);
    }

    constructor (maxUserData: nat -> nat, limitOfData: nat, packetFree: nat -> bool, bufferFree: nat -> bool)
      requires forall t: nat :: 1 <= maxUserData(t) <= limitOfData
      ensures Valid() && this.limitOfData == limitOfData && Written() == [] && log == Begun && sending
    {
      sending, open, vec, length, curvec, curpos, nFree := true, false, [], 0, 1, 0, 0;
      shipped, pending, log, told, asked := [], [], Begun, NOTHING, 0;
      this.maxUserData, this.limitOfData, this.packetFree, this.bufferFree := maxUserData, limitOfData, packetFree, bufferFree;
    }

    ghost method Note(m: Move)
      requires Replay(log) == Some(told) && Allowed(told.writing, m)
      modifies this`log, this`told
      ensures log == Then(old(log), m) && told == Add(old(told), m) && Replay(log) == Some(told)
    {
      log, told := Then(log, m), Add(told, m);
    }

    method ReadMaxUserData() returns (mud: nat)
      requires Sizes()
      modifies this`asked
      ensures 1 <= mud <= limitOfData && mud == maxUserData(old(asked)) && asked == old(asked) + 1
    {
      mud := maxUserData(asked);
      asked := asked + 1;
    }

    /**
     * rxi_AllocDataBuf: append continuation buffers until nb more bytes fit, the vector is full
     * or there is no buffer.
     */
    method AllocDataBuf(nb: int) returns (left: int)
      requires 2 <= |vec| <= MAX_WVECS && forall k :: 1 <= k < |vec| ==> 0 < |vec[k]|
      requires length <= |Data(vec)|
      modifies this`vec, this`length, this`asked
      ensures old(|vec|) <= |vec| <= MAX_WVECS && vec[..old(|vec|)] == old(vec)
      ensures forall k :: 1 <= k < |vec| ==> 0 < |vec[k]|
      ensures old(length) <= length <= |Data(vec)|
      ensures old(|vec|) < |vec| ==> old(length) < length
      ensures old(Data(vec)) <= Data(vec)
      ensures forall k :: 1 <= k <= old(|vec|) ==> Offset(vec, k) == old(Offset(vec, k))
      ensures length == old(length) + CBUFFER_SIZE * (|vec| - old(|vec|)) == old(length) + nb - left
      ensures 0 < left ==> |vec| == MAX_WVECS || (0 < asked && !bufferFree(asked - 1))
      ensures old(asked) <= asked
      ensures old(|vec|) < |vec| ==> 0 < left + CBUFFER_SIZE
    {
      left := nb;
      while left > 0 && |vec| < MAX_WVECS
        invariant old(|vec|) <= |vec| <= MAX_WVECS && vec[..old(|vec|)] == old(vec)
        invariant forall k :: 1 <= k < |vec| ==> 0 < |vec[k]|
        invariant old(length) <= length <= |Data(vec)|
        invariant old(|vec|) < |vec| ==> old(length) < length
        invariant old(Data(vec)) <= Data(vec)
        invariant forall k :: 1 <= k <= old(|vec|) ==> Offset(vec, k) == old(Offset(vec, k))
        invariant length == old(length) + CBUFFER_SIZE * (|vec| - old(|vec|)) == old(length) + nb - left
        invariant old(|vec|) < |vec| ==> 0 < left + CBUFFER_SIZE
        invariant old(asked) <= asked
        decreases MAX_WVECS - |vec|
      {
        var ok := bufferFree(asked);
        asked := asked + 1;
        if !ok { return; }
        var cb := NewCbuf();
        AppendBuffer(vec, cb);
        vec := vec + [cb];
        length := length + CBUFFER_SIZE;
        left := left - CBUFFER_SIZE;
      }
    }

    /** The packet grows by want bytes and what the last buffer has beyond them, but not past mud. */
    method Lengthen(want: int, mud: nat)
      requires 2 <= |vec| <= MAX_WVECS && forall k :: 1 <= k < |vec| ==> 0 < |vec[k]|
      requires length <= |Data(vec)|
      modifies this`vec, this`length, this`asked
      ensures old(|vec|) <= |vec| <= MAX_WVECS && vec[..old(|vec|)] == old(vec)
      ensures forall k :: 1 <= k < |vec| ==> 0 < |vec[k]|
      ensures old(Data(vec)) <= Data(vec) && length <= |Data(vec)|
      ensures forall k :: 1 <= k <= old(|vec|) ==> Offset(vec, k) == old(Offset(vec, k))
      ensures Min(old(length), mud) <= length <= mud && old(asked) <= asked
      ensures length < Min(old(length) + want, mud) ==> |vec| == MAX_WVECS || (0 < asked && !bufferFree(asked - 1))
      ensures if old(|vec|) < |vec| then length < old(length) + want + CBUFFER_SIZE else length == Min(old(length), mud)
    {
      if want > 0 {
        var _ := AllocDataBuf(want);
      }
      if length > mud {
        length := mud;
      }
    }

    /** A continuation buffer, whatever it held before. */
    method NewCbuf() returns (cb: seq<Byte>)
      ensures |cb| == CBUFFER_SIZE
    {
      cb := seq(CBUFFER_SIZE, _ => 0);
    }

    /** rxi_AllocSendPacket and the cursor set up after it; there may be no packet. */
    method OpenPacket(want: nat) returns (ok: bool)
      requires Sizes() && pending == []
      modifies this`open, this`vec, this`length, this`curvec, this`curpos, this`nFree, this`asked
      ensures ok ==> open && Filling() && 0 < length <= limitOfData && 0 < nFree == length && FitsWant(want, old(asked) + 1)
      ensures !ok ==> unchanged(this`open, this`vec, this`length, this`curvec, this`curpos, this`nFree)
      ensures !ok ==> 0 < asked && !packetFree(asked - 1)
    {
      ok := packetFree(asked);
      asked := asked + 1;
      if ok {
        NewPacket(want);
      }
    }

    /** The packet is as long as is wanted and allowed, unless there were no buffers for it. */
    ghost predicate FitsWant(want: nat, question: nat)
      reads this
    {
      var mud := maxUserData(question);
      && Min(FIRST_BUFFER_SIZE, mud) <= length <= mud
      && (length < Min(want, mud) ==> |vec| == MAX_WVECS || (0 < asked && !bufferFree(asked - 1)))
      && (length < FIRST_BUFFER_SIZE || length < want + CBUFFER_SIZE || length == FIRST_BUFFER_SIZE)
    }

    method NewPacket(want: nat)
      requires Sizes() && pending == []
      modifies this`open, this`vec, this`length, this`curvec, this`curpos, this`nFree, this`asked
      ensures open && Filling() && 0 < length <= limitOfData && 0 < nFree == length && FitsWant(want, old(asked))
    {
      var mud := ReadMaxUserData();
      vec := [seq(HEADER_SIZE, _ => 0), seq(FIRST_BUFFER_SIZE, _ => 0)];
      length := FIRST_BUFFER_SIZE;
      assert Data(vec) == vec[1] by { assert vec[1..] == [vec[1]]; FlatOne(vec[1]); }
      Lengthen(Min(want, mud) - length, mud);
      open, nFree, curvec, curpos := true, length, 1, 0;
      assert vec[1..1] == [];
    }

    /** One memcpy of the inner loop of rx_Write. */
    method Store(x: seq<Byte>)
      requires Stored() && curvec < |vec| && curpos + |x| <= |vec[curvec]| && |x| <= nFree
      modifies this`vec, this`curpos, this`nFree, this`pending
      ensures Stored() && |vec| == old(|vec|) && |vec[curvec]| == old(|vec[curvec]|)
      ensures curpos == old(curpos) + |x| && nFree == old(nFree) - |x|
      ensures pending == old(pending) + x
    {
      CopyKeeps(vec, curvec, curpos, pending, x);
      vec := vec[curvec := Overwrite(vec[curvec], curpos, x)];
      pending := pending + x;
      curpos := curpos + |x|;
      nFree := nFree - |x|;
    }

    /** The cursor moves on from a buffer that is full. */
    method NextBuffer()
      requires Stored() && curvec < |vec| && curpos == |vec[curvec]|
      modifies this`curvec, this`curpos, this`nFree
      ensures Filling()
    {
      DataSplit(vec, curvec);
      curpos := 0;
      curvec := curvec + 1;
      DataPrefix(vec, curvec);
      if curvec >= |vec| {
        nFree := 0;
      }
    }

    /** The buffers take as many bytes as the current one has room for. */
    method StoreSome(buf: seq<Byte>, from: nat) returns (t: nat)
      requires Filling() && 0 < nFree && from < |buf|
      modifies this`vec, this`curvec, this`curpos, this`nFree, this`pending
      ensures Filling() && from < from + t <= |buf|
      ensures pending == old(pending) + buf[from..from + t]
    {
      CursorInside(vec, length, nFree, curvec, curpos);
      var l1 := |vec[curvec]| - curpos;
      t := Min(nFree, Min(l1, |buf| - from));
      Store(buf[from..from + t]);
      if l1 == t {
        NextBuffer();
      }
    }

    method CopyIn(buf: seq<Byte>, from: nat) returns (t: nat)
      requires Valid() && open && 0 < nFree && from < |buf|
      modifies this`vec, this`curvec, this`curpos, this`nFree, this`pending, this`log, this`told
      ensures Valid() && from < from + t <= |buf|
      ensures log == Then(old(log), Put(buf[from..from + t]))
      ensures Written() == old(Written()) + buf[from..from + t]
    {
      t := StoreSome(buf, from);
      Note(Put(buf[from..from + t]));
    }

    /** A full packet grows while the peer would accept a longer one: by what is to be written, or all it may. */
    method Extend(nbytes: nat)
      requires Sizes() && Filling() && 0 < length <= limitOfData && nFree == 0
      modifies this`vec, this`length, this`nFree, this`asked
      ensures Filling() && 0 < length <= limitOfData && nFree == length - old(length)
      ensures Grown(old(length), nbytes, maxUserData(old(asked)))
      ensures nFree == 0 ==> Full()
    {
      var mud := ReadMaxUserData();
      if mud > length {
        Enlarge(if nbytes > 0 then Min(nbytes, mud - length) else mud - length, mud);
        assert nFree == 0 && |vec| != MAX_WVECS ==> !bufferFree(asked - 1);
      } else {
        assert maxUserData(asked - 1) <= length;
      }
    }

    /** The new room is behind the bytes that are stored. */
    method Enlarge(want: nat, mud: nat)
      requires Filling() && 0 < length <= mud && nFree == 0
      modifies this`vec, this`length, this`nFree, this`asked
      ensures Filling() && nFree == length - old(length) && old(length) <= length <= mud && old(asked) <= asked
      ensures length < Min(old(length) + want, mud) ==> |vec| == MAX_WVECS || (0 < asked && !bufferFree(asked - 1))
      ensures old(length) < length ==> length < old(length) + want + CBUFFER_SIZE
    {
      ghost var n, w := |vec|, vec;
      var len := length;
      Lengthen(want, mud);
      nFree := nFree + (length - len);
      assert curvec < n ==> vec[curvec] == vec[..n][curvec] == w[curvec];
      assert n < |vec| ==> 0 < |vec[n]|;
    }

    ghost predicate Grown(len: nat, nbytes: nat, mud: nat)
      reads this
    {
      && len <= length <= Max(len, mud)
      && (length < Min(if nbytes > 0 then len + nbytes else mud, mud) ==>
            |vec| == MAX_WVECS || (0 < asked && !bufferFree(asked - 1)))
      && (0 < nbytes && len < length ==> length < len + nbytes + CBUFFER_SIZE)
    }

    /** The inner loop of rx_Write: store bytes while there are bytes and room. */
    method FillPacket(buf: seq<Byte>, from: nat, ghost limit: nat) returns (to: nat)
      requires Valid() && open && 0 < nFree && from <= |buf|
      modifies this`vec, this`length, this`curvec, this`curpos, this`nFree, this`pending, this`asked, this`log, this`told
      ensures Valid() && from <= to <= |buf| && (from < |buf| ==> from < to)
      ensures Written() == old(Written()) + buf[from..to]
      ensures to == |buf| || nFree == 0
      ensures from < to && nFree == 0 ==> Full()
      ensures Continues(old(log), log, limit)
    {
      to := from;
      while to < |buf| && nFree > 0
        invariant Valid() && from <= to <= |buf| && (nFree == 0 ==> from < to && Full())
        invariant Written() == old(Written()) + buf[from..to]
        invariant Continues(old(log), log, limit)
        decreases |buf| - to
      {
        var t := FillOnce(buf, to);
        assert old(Written()) + buf[from..to] + buf[to..to + t] == old(Written()) + buf[from..to + t];
        to := to + t;
      }
    }

    /** One turn of the inner loop. */
    method FillOnce(buf: seq<Byte>, from: nat) returns (t: nat)
      requires Valid() && open && 0 < nFree && from < |buf|
      modifies this`vec, this`length, this`curvec, this`curpos, this`nFree, this`pending, this`asked, this`log, this`told
      ensures Valid() && from < from + t <= |buf|
      ensures Written() == old(Written()) + buf[from..from + t]
      ensures log == Then(old(log), Put(buf[from..from + t]))
      ensures nFree == 0 ==> Full()
    {
      t := CopyIn(buf, from);
      if nFree == 0 {
        Extend(|buf| - from - t);
      }
    }

    /** The packet cannot grow: it is as long as the peer takes, its vector is full, or a buffer was wanting. */
    ghost predicate Full()
      reads this
    {
      |vec| == MAX_WVECS || exists q: nat :: q < asked && (maxUserData(q) <= length || !bufferFree(q))
    }

    /** A packet with room in it: a full one is handed over first. */
    method MakeRoom(want: nat, limit: nat) returns (outcome: Outcome)
      requires Valid() && sending
      modifies this
      ensures Valid() && sending && Written() == old(Written())
      ensures outcome == Done ==> open && 0 < nFree
      ensures outcome != Done ==> Sleeps(outcome, limit)
      ensures Continues(old(log), log, limit)
    {
      outcome := Done;
      if nFree == 0 {
        if open {
          HandOver();
        }
        ghost var before := log;
        outcome := Await(want, limit);
        ContinuesFurther(old(log), before, log, limit);
      }
    }

    /** Why the writer cannot go on: the window is closed, or there is no packet. */
    ghost predicate Sleeps(outcome: Outcome, limit: nat)
      reads this
    {
      && !open
      && match outcome
         case Asleep => !InWindow(|shipped|, limit)
         case Starved => InWindow(|shipped|, limit) && 0 < asked && !packetFree(asked - 1)
         case _ => false
    }

    /** The wait for the window, and a new packet once it is open. */
    method Await(want: nat, limit: nat) returns (outcome: Outcome)
      requires Valid() && sending && !open
      modifies this`open, this`vec, this`length, this`curvec, this`curpos, this`nFree, this`asked, this`log, this`told
      ensures Valid() && Written() == old(Written())
      ensures outcome == Asleep <==> !InWindow(|shipped|, limit)
      ensures outcome == Done ==> open && 0 < nFree && log == Then(old(log), Opened)
      ensures outcome != Done ==> Sleeps(outcome, limit) && log == old(log)
      ensures Continues(old(log), log, limit)
    {
      if |shipped| + 2 > limit {
        return Asleep;
      }
      HandedCount(log);
      var ok := BeginPacket(want);
      return if ok then Done else Starved;
    }

    method BeginPacket(want: nat) returns (ok: bool)
      requires Valid() && sending && !open
      modifies this`open, this`vec, this`length, this`curvec, this`curpos, this`nFree, this`asked, this`log, this`told
      ensures Valid() && Written() == old(Written()) && open == ok
      ensures ok ==> 0 < nFree && log == Then(old(log), Opened)
      ensures !ok ==> 0 < asked && !packetFree(asked - 1) && log == old(log)
    {
      OpenedAdds(told);
      ok := OpenPacket(want);
      if ok {
        Note(Opened);
      }
    }

    /** The current packet goes to the transport, and is not the last. */
    method HandOver()
      requires Valid() && open && nFree == 0
      modifies this`open, this`shipped, this`pending, this`log, this`told
      ensures Valid() && !open && Written() == old(Written()) && log == Then(old(log), Shipped)
    {
      ghost var x := Ship(false);
      CarryOneMore(old(shipped), told.parcels, x);
      Note(Shipped);
    }

    /** rx_Write of an error-free call; n bytes are accepted. */
    method Write(buf: seq<Byte>, limit: nat) returns (n: nat, outcome: Outcome)
      requires Valid()
      modifies this
      ensures Valid() && n <= |buf|
      ensures Written() == old(Written()) + buf[..n]
      ensures outcome == Refused <==> !old(sending)
      ensures outcome == Refused ==> n == 0 && log == old(log)
      ensures outcome == Done ==> n == |buf| && open
      ensures outcome == Asleep || outcome == Starved ==> sending && Sleeps(outcome, limit)
      ensures Continues(old(log), log, limit)
    {
      if !sending {
        return 0, Refused;
      }
      n := 0;
      while true
        invariant Valid() && sending && n <= |buf|
        invariant Written() == old(Written()) + buf[..n]
        invariant Continues(old(log), log, limit)
        invariant 0 < n ==> n < |buf|
        decreases |buf| - n
      {
        ghost var before := log;
        var to;
        outcome, to := Round(buf, n, limit);
        ContinuesFurther(old(log), before, log, limit);
        assert old(Written()) + buf[..n] + buf[n..to] == old(Written()) + buf[..to];
        n := to;
        if outcome != Done || n == |buf| {
          return;
        }
      }
    }

    /** One turn of the outer loop. */
    method Round(buf: seq<Byte>, from: nat, limit: nat) returns (outcome: Outcome, to: nat)
      requires Valid() && sending && from <= |buf|
      modifies this
      ensures Valid() && sending && from <= to <= |buf| && (outcome == Done && from < |buf| ==> from < to)
      ensures Written() == old(Written()) + buf[from..to]
      ensures outcome == Done ==> open
      ensures outcome != Done ==> to == from && Sleeps(outcome, limit)
      ensures Continues(old(log), log, limit)
    {
      outcome := MakeRoom(|buf| - from, limit);
      to := from;
      if outcome == Done {
        ghost var before := log;
        to := FillPacket(buf, from, limit);
        ContinuesFurther(old(log), before, log, limit);
      }
    }

    /** The current packet as it is, or an empty one. */
    method Conclude() returns (ok: bool)
      requires Sizes() && if open then Stored() else pending == []
      modifies this`open, this`vec, this`length, this`curvec, this`curpos, this`nFree, this`asked
      ensures ok ==> open && Stored() && nFree == 0
      ensures !ok ==> unchanged(this`open, this`vec, this`length, this`curvec, this`curpos, this`nFree)
      ensures !ok ==> !open && 0 < asked && !packetFree(asked - 1)
    {
      ok := true;
      if open {
        length := length - nFree;
        nFree := 0;
      } else {
        ok := OpenPacket(0);
        if ok {
          length, nFree := 0, 0;
        }
      }
    }

    /**
     * rx_FlushWrite: the rest of the current packet, or an empty one, goes out as the last.  It may
     * have to sleep for the empty one.
     */
    method FlushWrite() returns (outcome: Outcome)
      requires Valid() && Stage() != Waiting
      modifies this
      ensures Valid() && Written() == old(Written()) && pending == (if outcome == Done then [] else old(pending))
      ensures outcome == Done || outcome == Starved
      ensures outcome == Done ==> !sending && !open && log == if old(sending) then Then(old(log), Last) else old(log)
      ensures outcome == Done && old(sending) ==> |shipped| == |old(shipped)| + 1 && shipped[|old(shipped)|].last
      ensures outcome == Starved ==> sending && !open && 0 < asked && !packetFree(asked - 1)
      ensures outcome == Starved ==> log == old(log) && shipped == old(shipped) && Stage() == old(Stage())
    {
      if !sending {
        return Done;
      }
      var ok := Conclude();
      if !ok {
        return Starved;
      }
      HandOverLast();
      return Done;
    }

    /** The current packet goes to the transport as the last. */
    method HandOverLast()
      requires Sizes() && Small(told.parcels, limitOfData) && open && sending && Stored() && nFree == 0 && |pending| <= limitOfData
      requires Trimmed(shipped) && Replay(log) == Some(told) && Carry(shipped, told.parcels)
      requires Allowed(told.writing, Last) && Pending(told.writing) == pending
      modifies this`open, this`sending, this`shipped, this`pending, this`log, this`told
      ensures Valid() && !sending && !open && pending == [] && Written() == old(Written()) && log == Then(old(log), Last)
      ensures |shipped| == |old(shipped)| + 1 && shipped[|old(shipped)|].last
    {
      ghost var x := Ship(true);
      LastOneMore(old(shipped), told, x, limitOfData);
      sending := false;
      Note(Last);
    }

    /** rxi_PrepareSendPacket of the current packet: its buffers are cut to its length. */
    method Ship(last: bool) returns (ghost x: Shipment)
      requires open && Stored() && nFree == 0
      modifies this`open, this`shipped, this`pending
      ensures !open && pending == [] && shipped == old(shipped) + [x]
      ensures x.vec != [] && x.last == last && Data(x.vec) == old(pending)
    {
      var v := Trim(vec, length);
      x := Shipment(v, last);
      shipped := shipped + [Shipment(v, last)];
      open, pending := false, [];
    }
  }

  lemma CarryOneMore(q: seq<Shipment>, parcels: seq<Parcel>, x: Shipment)
    requires Trimmed(q) && Carry(q, parcels) && x.vec != [] && (x.last || Data(x.vec) != [])
    ensures Trimmed(q + [x]) && Carry(q + [x], parcels + [Parcel(Data(x.vec), x.last)])
  {
  }

  lemma LastOneMore(q: seq<Shipment>, t: Told, x: Shipment, limit: nat)
    requires Trimmed(q) && Carry(q, t.parcels) && Small(t.parcels, limit) && Allowed(t.writing, Last)
    requires x.vec != [] && x.last && Data(x.vec) == Pending(t.writing) && |Pending(t.writing)| <= limit
    ensures Trimmed(q + [x]) && Carry(q + [x], Add(t, Last).parcels) && Small(Add(t, Last).parcels, limit)
    ensures Add(t, Last).writing == Flushed && Add(t, Last).written == t.written
  {
    CarryOneMore(q, t.parcels, x);
  }

  lemma {:induction false} CarriedBytes(q: seq<Shipment>, parcels: seq<Parcel>)
    requires Trimmed(q) && Carry(q, parcels)
    ensures Payloads(q) == Bytes(parcels)
    decreases |q|
  {
    if q != [] {
      CarriedBytes(q[..|q| - 1], parcels[..|q| - 1]);
    }
  }

  /** While there is room the cursor is inside a buffer. */
  lemma CursorInside(vec: Buffers, length: nat, nFree: nat, curvec: nat, curpos: nat)
    requires vec != [] && 0 < nFree <= length <= |Data(vec)| && 1 <= curvec <= |vec|
    requires Offset(vec, curvec) + curpos == length - nFree && (curvec == |vec| ==> curpos == 0)
    ensures curvec < |vec|
  {
    DataPrefix(vec, curvec);
  }

  lemma CopyKeeps(vec: Buffers, curvec: nat, curpos: nat, pending: seq<Byte>, x: seq<Byte>)
    requires 1 <= curvec < |vec| && curpos + |x| <= |vec[curvec]|
    requires Offset(vec, curvec) + curpos <= |Data(vec)| && pending == Data(vec)[..Offset(vec, curvec) + curpos]
    ensures var w := vec[curvec := Overwrite(vec[curvec], curpos, x)];
            && |Data(w)| == |Data(vec)|
            && |pending + x| <= |Data(w)| && Data(w)[..|pending + x|] == pending + x
            && Offset(w, curvec) == Offset(vec, curvec)
            && Offset(w, curvec + 1) == Offset(vec, curvec) + |vec[curvec]|
  {
    OverwriteData(vec, curvec, curpos, x);
    DataSplit(vec[curvec := Overwrite(vec[curvec], curpos, x)], curvec);
  }

  /** The trimming loop of rxi_PrepareSendPacket; its panic branch is unreachable. */
  method Trim(vec: Buffers, length: nat) returns (v: Buffers)
    requires vec != [] && length <= |Data(vec)|
    ensures v != [] && Data(v) == Data(vec)[..length]
  {
    var len: int := length;
    var i := 1;
    assert vec[1..1] == [];
    while i < |vec| && len > 0
      invariant 1 <= i <= |vec|
      invariant len == length - Offset(vec, i)
      invariant i == 1 || length > Offset(vec, i - 1)
    {
      DataSplit(vec, i);
      len := len - |vec[i]|;
      i := i + 1;
    }
    DataPrefix(vec, i);
    if len > 0 {
      assert false;
    }
    var keep := |vec[i - 1]| + len;
    if i > 1 {
      DataSplit(vec, i - 1);
      CutData(vec, i - 1, keep);
    }
    v := vec[..i][i - 1 := vec[i - 1][..keep]];
    if i == 1 {
      assert v[1..] == [];
    }
  }

  /** The vector up to entry j, with that entry cut. */
  lemma CutData(vec: Buffers, j: nat, keep: nat)
    requires 1 <= j < |vec| && keep <= |vec[j]|
    ensures var v := vec[..j + 1][j := vec[j][..keep]];
            Offset(vec, j) + keep <= |Data(vec)| && Data(v) == Data(vec)[..Offset(vec, j) + keep]
  {
    var v := vec[..j + 1][j := vec[j][..keep]];
    DataSplit(vec, j);
    DataSplit(v, j);
    assert v[1..j] == vec[1..j] && v[j + 1..] == [];
  }
}
