/**
 * The packet pool of rx/rx_pkt.c and its quotas.  A packet of some class may be taken when at
 * least that class's quota stays free.  The listener holds one packet to read into; it trades
 * the packet in when a call keeps it.  Senders sleep when over quota, but a failing listener
 * or special allocation is a panic, the outcome None.
 */
module RxPacketPool {
  import opened RxBase

  datatype Class = Receive | Send | Special

  datatype Quotas = Quotas(receive: nat, send: nat, special: nat) {
    function Of(class_: Class): nat {
      match class_ case Receive => receive case Send => send case Special => special
    }
  }

  /** RX_PACKET_QUOTAS. */
  const QUOTAS := Quotas(1, 10, 0)

  // ------------------------------------------------------------------ the pool

  class Pool {
    const quotas: Quotas
    var nFree: int
    var free: seq<nat>

    ghost predicate Valid()
      reads this
    {
      nFree == |free|
    }

    constructor (q: Quotas)
      ensures Valid() && free == [] && quotas == q
    {
      quotas, nFree, free := q, 0, [];
    }

    /** rxi_MorePackets; packets are known by their numbers. */
    method MorePackets(n: nat, first: nat)
      requires Valid()
      modifies this
      ensures Valid() && free == old(free) + seq(n, i => first + i)
    {
      var i := 0;
      while i < n
        invariant i <= n && free == old(free) + seq(i, k => first + k) && nFree == old(nFree)
      {
        free := free + [first + i];
        i := i + 1;
      }
      nFree := nFree + n;
    }

    method OverQuota(class_: Class) returns (over: bool)
      ensures over == (nFree - 1 < quotas.Of(class_))
    {
      over := nFree - 1 < quotas.Of(class_);
    }

    /** rxi_AllocPacket: the panic on an empty queue is never reached. */
    method AllocPacket(class_: Class) returns (p: Option<nat>)
      requires Valid()
      modifies this
      ensures Valid()
      ensures p.None? <==> old(nFree) <= quotas.Of(class_)
      ensures p.None? ==> free == old(free)
      ensures p.Some? ==> [p.value] + free == old(free) && quotas.Of(class_) <= nFree
    {
      var over := OverQuota(class_);
      if over { return None; }
      nFree := nFree - 1;
      assert free != [];
      p := Some(free[0]);
      free := free[1..];
    }

    method FreePacket(p: nat)
      requires Valid()
      modifies this
      ensures Valid() && free == old(free) + [p]
    {
      nFree := nFree + 1;
      free := free + [p];
    }
  }

  // -------------------------------------------------------------------- runs

  /** nFree packets are free, used ones are with the calls, and the listener may hold one. */
  datatype State = State(nFree: nat, used: nat, holds: bool)

  function Listen(s: State, q: Quotas): Option<State> {
    if s.nFree - 1 < q.receive then None else Some(State(s.nFree - 1, s.used, true))
  }

  /** Special packets are taken one at a time and freed in the same breath. */
  function Specials(s: State, q: Quotas, n: nat): Option<State> {
    if 0 < n && s.nFree - 1 < q.special then None else Some(s)
  }

  /** TooLow. */
  predicate TooLow(s: State, dataQuota: nat, wanted: bool) {
    s.nFree < dataQuota + 2 && !wanted
  }

  /** A data packet: dropped when packets are short, given to its call, or reused for the ack. */
  function Arrive(s: State, q: Quotas, dataQuota: nat, wanted: bool, queued: bool, n: nat): Option<State> {
    if s.nFree - 1 < q.receive || TooLow(s, dataQuota, wanted) || !queued then Specials(s, q, n)
    else
      match Specials(State(s.nFree, s.used + 1, false), q, n)
      case None => None
      case Some(t) => Listen(t, q)
  }

  datatype Label =
    | DoSend
    | DoFree
    | DoSpecial
    | DoArrive(dataQuota: nat, wanted: bool, queued: bool, specials: nat)
    | DoMore(n: nat)

  predicate Enabled(s: State, l: Label) {
    l.DoFree? ==> 0 < s.used
  }

  function Step(s: State, q: Quotas, l: Label): Option<State>
    requires Enabled(s, l)
  {
    match l
    case DoSend => Some(if s.nFree - 1 < q.send then s else State(s.nFree - 1, s.used + 1, s.holds))
    case DoFree => Some(State(s.nFree + 1, s.used - 1, s.holds))
    case DoSpecial => Specials(s, q, 1)
    case DoArrive(dataQuota, wanted, queued, n) => Arrive(s, q, dataQuota, wanted, queued, n)
    case DoMore(n) => Some(s.(nFree := s.nFree + n))
  }

  predicate Run(s: State, q: Quotas, ls: seq<Label>, t: State)
    decreases |ls|
  {
    if ls == [] then s == t
    else Enabled(s, ls[0]) && Step(s, q, ls[0]).Some? && Run(Step(s, q, ls[0]).value, q, ls[1..], t)
  }

  predicate Reaches(q: Quotas, n: nat, ls: seq<Label>, s: State) {
    Listen(State(n, 0, false), q).Some? && Run(Listen(State(n, 0, false), q).value, q, ls, s)
  }

  /** No step of any run panics, from n packets and a listener that took its first. */
  ghost predicate NeverPanics(q: Quotas, n: nat) {
    forall ls, s, l :: Reaches(q, n, ls, s) && Enabled(s, l) ==> Step(s, q, l).Some?
  }

  /** What stays free while the listener holds its packet. */
  predicate Inv(s: State, q: Quotas) {
    s.holds && Min(q.receive, q.send) <= s.nFree
  }

  lemma StepInv(s: State, q: Quotas, l: Label)
    requires Inv(s, q) && Enabled(s, l) && q.special < q.receive && q.special < q.send
    ensures Step(s, q, l).Some? && Inv(Step(s, q, l).value, q)
    ensures var t := Step(s, q, l).value;
            !l.DoMore? ==> t.nFree + t.used == s.nFree + s.used
  {
  }

  /** A call gets a packet to keep: to send, or one that came in and was wanted and not too dear. */
  predicate Keeps(s: State, q: Quotas, l: Label) {
    match l
    case DoSend => q.send < s.nFree
    case DoArrive(dataQuota, wanted, queued, _) => queued && q.receive < s.nFree && (wanted || dataQuota + 2 <= s.nFree)
    case _ => false
  }

  /** Each step moves one packet between the pool and the calls, or none, and the listener has one again. */
  lemma StepExactly(s: State, q: Quotas, l: Label)
    requires Inv(s, q) && Enabled(s, l) && q.special < q.receive && q.special < q.send
    ensures Step(s, q, l).Some?
    ensures var t := Step(s, q, l).value;
            && t.holds
            && t.used == s.used + One(Keeps(s, q, l)) - One(l.DoFree?)
            && t.nFree == s.nFree - One(Keeps(s, q, l)) + One(l.DoFree?) + if l.DoMore? then l.n else 0
  {
    StepInv(s, q, l);
  }

  /** Whatever the quotas, a step panics if and only if it asks for a special packet when no more than the special quota are free. */
  lemma PanicsExactly(s: State, q: Quotas, l: Label)
    requires Enabled(s, l)
    ensures Step(s, q, l).None? <==> s.nFree <= q.special && (l.DoSpecial? || (l.DoArrive? && 0 < l.specials))
  {
  }

  lemma {:induction false} RunInv(s: State, q: Quotas, ls: seq<Label>, t: State)
    requires Inv(s, q) && Run(s, q, ls, t) && q.special < q.receive && q.special < q.send
    ensures Inv(t, q)
    decreases |ls|
  {
    if ls != [] {
      StepInv(s, q, ls[0]);
      RunInv(Step(s, q, ls[0]).value, q, ls[1..], t);
    }
  }

  lemma QuotasSuffice(q: Quotas, n: nat)
    requires q.special < q.receive && q.special < q.send
    ensures NeverPanics(q, n)
  {
    forall ls, s, l | Reaches(q, n, ls, s) && Enabled(s, l) ensures Step(s, q, l).Some? {
      RunInv(Listen(State(n, 0, false), q).value, q, ls, s);
      StepInv(s, q, l);
    }
  }

  /** Sends take the pool down to the send quota. */
  lemma {:induction false} SendsDown(s: State, q: Quotas) returns (ls: seq<Label>, t: State)
    requires q.send <= s.nFree
    ensures Run(s, q, ls, t) && t.nFree == q.send
    decreases s.nFree
  {
    if s.nFree == q.send {
      ls, t := [], s;
    } else {
      var rest;
      rest, t := SendsDown(Step(s, q, DoSend).value, q);
      ls := [DoSend] + rest;
      assert ls[1..] == rest;
    }
  }

  /**
   * The quotas that never lead to a panic, however large the pool and whatever happens: exactly
   * those under which a special packet is left by both the receive and the send quota.
   */
  lemma QuotasExact(q: Quotas)
    ensures (forall n :: NeverPanics(q, n)) <==> q.special < q.receive && q.special < q.send
  {
    if q.special < q.receive && q.special < q.send {
      forall n ensures NeverPanics(q, n) {
        QuotasSuffice(q, n);
      }
    } else {
      var n := if q.receive <= q.special then q.receive + 1 else Max(q.receive, q.send) + 1;
      var s := Listen(State(n, 0, false), q).value;
      var ls, t := [], s;
      if q.special < q.receive {
        ls, t := SendsDown(s, q);
      }
      assert Reaches(q, n, ls, t) && Enabled(t, DoSpecial) && Step(t, q, DoSpecial).None?;
      assert !NeverPanics(q, n);
    }
  }

  /** With the quotas of the source the listener starts on two packets, and no run panics. */
  lemma PoolNeverPanics(n: nat)
    ensures Listen(State(n, 0, false), QUOTAS).Some? <==> 2 <= n
    ensures NeverPanics(QUOTAS, n)
  {
    QuotasSuffice(QUOTAS, n);
  }
}
