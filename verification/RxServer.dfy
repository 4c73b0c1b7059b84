/**
 * Calls on the server side of rx/rx.c: the life of a call on a channel (PRECALL, ACTIVE,
 * DALLY), the queue of calls waiting for a process, the queue of idle processes, and the
 * three counters that enforce minProcs and maxProcs.  The functions say what one atomic
 * piece of code does; class `RxServerProcs.Server` carries the queue scans out in place.
 */
module RxServer {
  import opened RxBase

  datatype Phase = Precall | Active | Dally

  datatype CallRec = CallRec(phase: Phase, waitProc: bool, error: bool)

  /** One channel of one server connection: conn->callNumber[i], conn->call[i] and what it executed. */
  datatype Channel = Channel(callNumber: nat, call: Option<CallRec>, executed: seq<nat>)

  datatype Service = Service(minProcs: nat, maxProcs: nat, running: nat)

  /** A server process waits on the idle queue, has been handed a call, or executes one. */
  datatype Proc = Idle | Handed(chan: nat) | Running(chan: nat)

  datatype Server = Server(
    serviceOf: seq<nat>, channels: seq<Channel>, services: seq<Service>, procs: seq<Proc>,
    idle: seq<nat>, incoming: seq<nat>,
    availProcs: int, minDeficit: int, nWaiting: int)

  /** What a packet for a call may carry, as far as this side is concerned. */
  datatype Body = Data(attach: bool) | Abort | Other

  // ------------------------------------------------------------- operations

  predicate QuotaOK(s: Server, svc: nat)
    requires svc < |s.services|
  {
    var v := s.services[svc];
    v.running < v.maxProcs && (v.running < v.minProcs || s.availProcs > s.minDeficit)
  }

  ghost predicate Typed(s: Server) {
    && |s.serviceOf| == |s.channels|
    && (forall c :: 0 <= c < |s.serviceOf| ==> s.serviceOf[c] < |s.services|)
    && (forall i :: 0 <= i < |s.incoming| ==> s.incoming[i] < |s.channels| && s.channels[s.incoming[i]].call.Some?)
    && (forall i :: 0 <= i < |s.idle| ==> s.idle[i] < |s.procs|)
    && (forall p :: 0 <= p < |s.procs| && !s.procs[p].Idle? ==> s.procs[p].chan < |s.channels|)
  }

  function SetCall(s: Server, c: nat, rec: CallRec): Server
    requires c < |s.channels|
  {
    s.(channels := s.channels[c := s.channels[c].(call := Some(rec))])
  }

  /** The state is ACTIVE from here on; the call number joins the channel's history. */
  function Activate(s: Server, c: nat, p: nat, proc: Proc): Server
    requires c < |s.channels| && p < |s.procs| && s.channels[c].call.Some?
  {
    var ch := s.channels[c];
    s.(channels := s.channels[c := ch.(call := Some(ch.call.value.(phase := Active, waitProc := false)),
                                      executed := ch.executed + [ch.callNumber])],
       procs := s.procs[p := proc])
  }

  /** nRequestsRunning++ and the adjustment of the counters that follows it. */
  function CountStart(s: Server, svc: nat): Server
    requires svc < |s.services|
  {
    var v := s.services[svc];
    s.(services := s.services[svc := v.(running := v.running + 1)],
       minDeficit := if v.running + 1 <= v.minProcs then s.minDeficit - 1 else s.minDeficit,
       availProcs := s.availProcs - 1)
  }

  /** nRequestsRunning-- and the adjustment of the counters that follows it. */
  function CountEnd(s: Server, svc: nat): Server
    requires svc < |s.services| && 0 < s.services[svc].running
  {
    var v := s.services[svc];
    s.(services := s.services[svc := v.(running := v.running - 1)],
       minDeficit := if v.running - 1 < v.minProcs then s.minDeficit + 1 else s.minDeficit,
       availProcs := s.availProcs + 1)
  }

  function LeaveQueue(s: Server, c: nat): Server {
    s.(incoming := Without(s.incoming, c), nWaiting := s.nWaiting - 1)
  }

  /** rxi_AttachServerProc. */
  function Attach(s: Server, c: nat): Server
    requires Typed(s) && c < |s.channels| && s.channels[c].call.Some?
  {
    var rec := s.channels[c].call.value;
    if rec.phase == Active then s
    else if !QuotaOK(s, s.serviceOf[c]) || s.idle == [] then
      if rec.waitProc then s
      else SetCall(s, c, rec.(waitProc := true)).(incoming := s.incoming + [c], nWaiting := s.nWaiting + 1)
    else
      var s1 := if rec.waitProc then LeaveQueue(s, c) else s;
      CountStart(Activate(s1, c, s.idle[0], Handed(c)).(idle := s.idle[1..]), s.serviceOf[c])
  }

  /** Position of the first queued call whose service may start another, or the queue's length. */
  function FirstEligible(s: Server, i: nat): (k: nat)
    requires Typed(s) && i <= |s.incoming|
    ensures i <= k <= |s.incoming|
    ensures forall j :: i <= j < k ==> !QuotaOK(s, s.serviceOf[s.incoming[j]])
    ensures k < |s.incoming| ==> QuotaOK(s, s.serviceOf[s.incoming[k]])
    decreases |s.incoming| - i
  {
    if i == |s.incoming| || QuotaOK(s, s.serviceOf[s.incoming[i]]) then i
    else FirstEligible(s, i + 1)
  }

  /** rx_GetCall by process p: start an eligible call or join the idle queue. */
  function GetCall(s: Server, p: nat): Server
    requires Typed(s) && p < |s.procs|
  {
    var k := FirstEligible(s, 0);
    if k == |s.incoming| then s.(procs := s.procs[p := Idle], idle := s.idle + [p])
    else
      var c := s.incoming[k];
      CountStart(Activate(LeaveQueue(s, c), c, p, Running(c)), s.serviceOf[c])
  }

  /** rx_EndCall by process p, up to its return. */
  function EndCall(s: Server, p: nat): Server
    requires Typed(s) && p < |s.procs| && s.procs[p].Running?
    requires var c := s.procs[p].chan;
             s.channels[c].call.Some? && 0 < s.services[s.serviceOf[c]].running
  {
    var c := s.procs[p].chan;
    CountEnd(SetCall(s, c, s.channels[c].call.value.(phase := Dally)), s.serviceOf[c])
  }

  /** rxi_ResetCall: off the queue, flags and error cleared; the phase is left alone. */
  function Reset(s: Server, c: nat): Server
    requires c < |s.channels| && s.channels[c].call.Some?
  {
    var rec := s.channels[c].call.value;
    var s1 := if rec.waitProc then LeaveQueue(s, c) else s;
    SetCall(s1, c, rec.(waitProc := false, error := false))
  }

  /** rxi_CallError. */
  function CallError(s: Server, c: nat): Server
    requires c < |s.channels| && s.channels[c].call.Some?
  {
    SetCall(Reset(s, c), c, s.channels[c].call.value.(waitProc := false, error := true))
  }

  /** rxi_FreeCall. */
  function FreeCall(s: Server, c: nat): Server
    requires c < |s.channels| && s.channels[c].call.Some?
  {
    var ch := s.channels[c];
    var s1 := Reset(s, c);
    s1.(channels := s1.channels[c := ch.(call := None,
                                         callNumber := if ch.call.value.phase == Dally then ch.callNumber + 1 else ch.callNumber)])
  }

  /** A call structure for call number n in PRECALL, new or reset. */
  function Renew(s: Server, c: nat, n: nat): Server
    requires c < |s.channels|
  {
    var s1 := if s.channels[c].call.Some? then Reset(s, c) else s;
    s1.(channels := s1.channels[c := s1.channels[c].(callNumber := n, call := Some(CallRec(Precall, false, false)))])
  }

  function Dispatch(s: Server, c: nat, body: Body): Server
    requires Typed(s) && c < |s.channels| && s.channels[c].call.Some?
  {
    var rec := s.channels[c].call.value;
    match body
    case Data(attach) => if attach && !rec.error && rec.phase == Precall then Attach(s, c) else s
    case Abort => CallError(s, c)
    case Other => s
  }

  /** The server's part of rxi_ReceivePacket for a packet of call number n on channel c. */
  function Receive(s: Server, c: nat, n: nat, body: Body): Server
    requires Typed(s) && c < |s.channels|
  {
    var ch := s.channels[c];
    if n < ch.callNumber then s
    else if ch.call.None? || (n != ch.callNumber && ch.call.value.phase != Active) then
      RenewTyped(s, c, n);
      Dispatch(Renew(s, c, n), c, body)
    else if n != ch.callNumber then CallError(s, c)
    else Dispatch(s, c, body)
  }

  lemma WithoutKeeps(q: seq<nat>, x: nat)
    ensures forall i :: 0 <= i < |Without(q, x)| ==> Without(q, x)[i] in q
  {
    var k, r := IndexOf(q, x), Without(q, x);
    assert forall i :: 0 <= i < |r| ==> r[i] == q[if i < k then i else i + 1];
  }

  lemma RenewTyped(s: Server, c: nat, n: nat)
    requires Typed(s) && c < |s.channels|
    ensures Typed(Renew(s, c, n))
  {
    WithoutKeeps(s.incoming, c);
  }

  // -------------------------------------------------------------- invariant

  ghost predicate Increasing(q: seq<nat>) {
    forall i, j :: 0 <= i < j < |q| ==> q[i] < q[j]
  }

  ghost predicate NoDup(q: seq<nat>) {
    forall i, j :: 0 <= i < j < |q| ==> q[i] != q[j]
  }

  predicate Started(ch: Channel) {
    ch.call.Some? && ch.call.value.phase != Precall
  }

  predicate IsActive(ch: Channel) {
    ch.call.Some? && ch.call.value.phase == Active
  }

  predicate IsWaiting(ch: Channel) {
    ch.call.Some? && ch.call.value.waitProc
  }

  /** The current call number has been executed exactly when the call is past PRECALL. */
  ghost predicate History(ch: Channel) {
    && Increasing(ch.executed)
    && (forall n :: n in ch.executed ==> n < ch.callNumber || (Started(ch) && n == ch.callNumber))
    && (Started(ch) ==> ch.callNumber in ch.executed)
    && (IsWaiting(ch) ==> ch.call.value.phase == Precall)
  }

  ghost predicate Histories(channels: seq<Channel>) {
    forall c :: 0 <= c < |channels| ==> History(channels[c])
  }

  ghost predicate QueueInv(channels: seq<Channel>, incoming: seq<nat>) {
    NoDup(incoming) && forall c: nat :: c in incoming <==> c < |channels| && IsWaiting(channels[c])
  }

  predicate Owns(proc: Proc, c: nat) {
    !proc.Idle? && proc.chan == c
  }

  /** An active call belongs to exactly one process, and no other call to any. */
  ghost predicate OwnerInv(channels: seq<Channel>, procs: seq<Proc>) {
    && (forall c :: 0 <= c < |channels| && IsActive(channels[c]) ==> exists p :: 0 <= p < |procs| && Owns(procs[p], c))
    && (forall p :: 0 <= p < |procs| && !procs[p].Idle? ==> procs[p].chan < |channels| && IsActive(channels[procs[p].chan]))
    && (forall p, r :: 0 <= p < |procs| && 0 <= r < |procs| && !procs[p].Idle? && !procs[r].Idle? && procs[p].chan == procs[r].chan ==> p == r)
  }

  ghost predicate IdleInv(procs: seq<Proc>, idle: seq<nat>) {
    NoDup(idle) && forall p: nat :: p in idle <==> p < |procs| && procs[p].Idle?
  }

  predicate Serves(proc: Proc, serviceOf: seq<nat>, svc: nat) {
    !proc.Idle? && proc.chan < |serviceOf| && serviceOf[proc.chan] == svc
  }

  /** Number of processes executing calls of a service. */
  function Busy(procs: seq<Proc>, serviceOf: seq<nat>, svc: nat): nat {
    if procs == [] then 0
    else Busy(procs[..|procs| - 1], serviceOf, svc) + if Serves(procs[|procs| - 1], serviceOf, svc) then 1 else 0
  }

  function Shortfall(v: Service): nat {
    Max(0, v.minProcs - v.running)
  }

  function Deficit(services: seq<Service>): nat {
    if services == [] then 0 else Deficit(services[..|services| - 1]) + Shortfall(services[|services| - 1])
  }

  function TotalRunning(services: seq<Service>): nat {
    if services == [] then 0 else TotalRunning(services[..|services| - 1]) + services[|services| - 1].running
  }

  ghost predicate Counts(services: seq<Service>, serviceOf: seq<nat>, procs: seq<Proc>, minDeficit: int, availProcs: int) {
    && (forall v :: 0 <= v < |services| ==> services[v].running == Busy(procs, serviceOf, v))
    && (forall v :: 0 <= v < |services| ==> services[v].running <= services[v].maxProcs)
    && minDeficit == Deficit(services)
    && TotalRunning(services) + availProcs == |procs|
    && minDeficit <= availProcs
  }

  ghost predicate CountInv(s: Server) {
    Counts(s.services, s.serviceOf, s.procs, s.minDeficit, s.availProcs)
  }

  /** No process sits idle while a queued call could be started. */
  ghost predicate Conserving(s: Server)
    requires Typed(s)
  {
    s.idle == [] || forall c :: c in s.incoming ==> !QuotaOK(s, s.serviceOf[c])
  }

  ghost predicate Core(s: Server) {
    && Typed(s)
    && Histories(s.channels)
    && QueueInv(s.channels, s.incoming)
    && OwnerInv(s.channels, s.procs)
    && IdleInv(s.procs, s.idle)
    && CountInv(s)
    && s.availProcs == |s.idle|
    && s.nWaiting == |s.incoming|
  }

  ghost predicate Inv(s: Server) {
    Core(s) && Conserving(s)
  }

  // ------------------------------------------------------- counting lemmas

  lemma {:induction false} BusyUpdate(procs: seq<Proc>, serviceOf: seq<nat>, svc: nat, p: nat, x: Proc)
    requires p < |procs|
    ensures Busy(procs[p := x], serviceOf, svc) ==
            Busy(procs, serviceOf, svc) - (if Serves(procs[p], serviceOf, svc) then 1 else 0) + (if Serves(x, serviceOf, svc) then 1 else 0)
    decreases |procs|
  {
    var n := |procs| - 1;
    if p == n {
      assert procs[p := x][..n] == procs[..n];
    } else {
      BusyUpdate(procs[..n], serviceOf, svc, p, x);
      assert procs[p := x][..n] == procs[..n][p := x];
    }
  }

  lemma {:induction false} BusyPositive(procs: seq<Proc>, serviceOf: seq<nat>, svc: nat, p: nat)
    requires p < |procs| && Serves(procs[p], serviceOf, svc)
    ensures 0 < Busy(procs, serviceOf, svc)
    decreases |procs|
  {
    if p < |procs| - 1 {
      BusyPositive(procs[..|procs| - 1], serviceOf, svc, p);
    }
  }

  lemma {:induction false} SumsUpdate(services: seq<Service>, i: nat, v: Service)
    requires i < |services|
    ensures Deficit(services[i := v]) == Deficit(services) - Shortfall(services[i]) + Shortfall(v)
    ensures TotalRunning(services[i := v]) == TotalRunning(services) - services[i].running + v.running
    ensures Shortfall(services[i]) <= Deficit(services)
    decreases |services|
  {
    var n := |services| - 1;
    if i == n {
      assert services[i := v][..n] == services[..n];
    } else {
      SumsUpdate(services[..n], i, v);
      assert services[i := v][..n] == services[..n][i := v];
    }
  }

  lemma WithoutOne(q: seq<nat>, x: nat)
    requires NoDup(q) && x in q
    ensures |Without(q, x)| == |q| - 1
    ensures NoDup(Without(q, x))
    ensures forall y :: y in Without(q, x) <==> y in q && y != x
  {
    var k, r := IndexOf(q, x), Without(q, x);
    assert forall i :: 0 <= i < |r| ==> r[i] == q[if i < k then i else i + 1];
    forall y | y in q && y != x ensures y in r {
      var j :| 0 <= j < |q| && q[j] == y;
      assert r[if j < k then j else j - 1] == y;
    }
  }

  // ------------------------------------------------------ one piece at a time

  lemma HistoryStart(ch: Channel, ch': Channel)
    requires History(ch) && ch.call.Some? && !Started(ch)
    requires ch' == ch.(call := ch'.call, executed := ch.executed + [ch.callNumber])
    requires Started(ch') && !IsWaiting(ch')
    ensures History(ch')
  {
    assert forall n :: n in ch'.executed <==> n in ch.executed || n == ch.callNumber;
    forall i, j | 0 <= i < j < |ch'.executed|
      ensures ch'.executed[i] < ch'.executed[j]
    {
      assert ch.executed[i] in ch.executed;
    }
  }

  lemma QueueLeave(channels: seq<Channel>, incoming: seq<nat>, c: nat, ch: Channel)
    requires QueueInv(channels, incoming) && c < |channels| && IsWaiting(channels[c]) && !IsWaiting(ch)
    ensures QueueInv(channels[c := ch], Without(incoming, c)) && |Without(incoming, c)| == |incoming| - 1
    ensures forall x :: x in Without(incoming, c) ==> x in incoming
  {
    WithoutOne(incoming, c);
  }

  lemma QueueJoin(channels: seq<Channel>, incoming: seq<nat>, c: nat, ch: Channel)
    requires QueueInv(channels, incoming) && c < |channels| && !IsWaiting(channels[c]) && IsWaiting(ch)
    ensures QueueInv(channels[c := ch], incoming + [c])
  {
    assert forall x :: x in incoming + [c] <==> x in incoming || x == c;
  }

  lemma OwnerStart(channels: seq<Channel>, procs: seq<Proc>, c: nat, ch: Channel, p: nat, proc: Proc)
    requires OwnerInv(channels, procs) && c < |channels| && p < |procs|
    requires procs[p].Idle? && !IsActive(channels[c]) && IsActive(ch) && Owns(proc, c)
    ensures OwnerInv(channels[c := ch], procs[p := proc])
  {
    var cs, ps := channels[c := ch], procs[p := proc];
    forall d | 0 <= d < |cs| && IsActive(cs[d])
      ensures exists r :: 0 <= r < |ps| && Owns(ps[r], d)
    {
      if d == c {
        assert Owns(ps[p], d);
      } else {
        var r :| 0 <= r < |procs| && Owns(procs[r], d);
        assert Owns(ps[r], d);
      }
    }
  }

  lemma OwnerEnd(channels: seq<Channel>, procs: seq<Proc>, c: nat, ch: Channel, p: nat)
    requires OwnerInv(channels, procs) && c < |channels| && p < |procs|
    requires Owns(procs[p], c) && !IsActive(ch)
    ensures OwnerInv(channels[c := ch], procs[p := Idle])
  {
    var cs, ps := channels[c := ch], procs[p := Idle];
    forall d | 0 <= d < |cs| && IsActive(cs[d])
      ensures exists r :: 0 <= r < |ps| && Owns(ps[r], d)
    {
      var r :| 0 <= r < |procs| && Owns(procs[r], d);
      assert Owns(ps[r], d);
    }
  }

  lemma CountsStart(s: Server, c: nat, p: nat, proc: Proc)
    requires CountInv(s) && c < |s.serviceOf| && p < |s.procs| && s.serviceOf[c] < |s.services|
    requires s.procs[p].Idle? && Owns(proc, c) && QuotaOK(s, s.serviceOf[c])
    ensures CountInv(CountStart(s.(procs := s.procs[p := proc]), s.serviceOf[c]))
  {
    var svc := s.serviceOf[c];
    var v := s.services[svc];
    SumsUpdate(s.services, svc, v.(running := v.running + 1));
    forall u | 0 <= u < |s.services|
      ensures Busy(s.procs[p := proc], s.serviceOf, u) == Busy(s.procs, s.serviceOf, u) + if u == svc then 1 else 0
    {
      BusyUpdate(s.procs, s.serviceOf, u, p, proc);
    }
  }

  lemma CountsEnd(s: Server, c: nat, p: nat)
    requires CountInv(s) && c < |s.serviceOf| && p < |s.procs| && s.serviceOf[c] < |s.services|
    requires Owns(s.procs[p], c)
    ensures 0 < s.services[s.serviceOf[c]].running
    ensures CountInv(CountEnd(s.(procs := s.procs[p := Idle]), s.serviceOf[c]))
  {
    var svc := s.serviceOf[c];
    var v := s.services[svc];
    BusyPositive(s.procs, s.serviceOf, svc, p);
    SumsUpdate(s.services, svc, v.(running := v.running - 1));
    forall u | 0 <= u < |s.services|
      ensures Busy(s.procs[p := Idle], s.serviceOf, u) == Busy(s.procs, s.serviceOf, u) - if u == svc then 1 else 0
    {
      BusyUpdate(s.procs, s.serviceOf, u, p, Idle);
    }
  }

  // -------------------------------------------------------- whole operations

  lemma QueuedWait(channels: seq<Channel>, incoming: seq<nat>)
    requires QueueInv(channels, incoming)
    ensures forall i :: 0 <= i < |incoming| ==> incoming[i] < |channels| && IsWaiting(channels[incoming[i]])
  {
    forall i | 0 <= i < |incoming|
      ensures incoming[i] < |channels| && IsWaiting(channels[incoming[i]])
    {
      assert incoming[i] in incoming;
    }
  }

  /** A change to one channel that touches neither queue nor owner. */
  lemma ChannelInv(s: Server, c: nat, ch: Channel)
    requires Inv(s) && c < |s.channels| && History(ch)
    requires IsWaiting(ch) == IsWaiting(s.channels[c]) && IsActive(ch) == IsActive(s.channels[c])
    ensures Inv(s.(channels := s.channels[c := ch]))
  {
    QueuedWait(s.channels, s.incoming);
  }

  /** A waiting call leaves the queue. */
  lemma LeaveInv(s: Server, c: nat, ch: Channel)
    requires Inv(s) && c < |s.channels| && History(ch)
    requires IsWaiting(s.channels[c]) && !IsWaiting(ch) && !IsActive(ch)
    ensures Inv(LeaveQueue(s, c).(channels := s.channels[c := ch]))
  {
    QueueLeave(s.channels, s.incoming, c, ch);
    WithoutKeeps(s.incoming, c);
  }

  lemma ResetInv(s: Server, c: nat)
    requires Inv(s) && c < |s.channels| && s.channels[c].call.Some?
    ensures Inv(Reset(s, c))
    ensures var t := Reset(s, c); !IsWaiting(t.channels[c]) && t.channels[c] == s.channels[c].(call := t.channels[c].call)
  {
    var ch := Reset(s, c).channels[c];
    if IsWaiting(s.channels[c]) {
      LeaveInv(s, c, ch);
    } else {
      ChannelInv(s, c, ch);
    }
  }

  lemma CallErrorInv(s: Server, c: nat)
    requires Inv(s) && c < |s.channels| && s.channels[c].call.Some?
    ensures Inv(CallError(s, c))
  {
    ResetInv(s, c);
    var t := Reset(s, c);
    ChannelInv(t, c, CallError(s, c).channels[c]);
  }

  lemma FreeCallInv(s: Server, c: nat)
    requires Inv(s) && c < |s.channels| && s.channels[c].call.Some? && !IsActive(s.channels[c])
    ensures Inv(FreeCall(s, c))
  {
    ResetInv(s, c);
    var t := Reset(s, c);
    ChannelInv(t, c, FreeCall(s, c).channels[c]);
    assert t.channels[c := FreeCall(s, c).channels[c]] == FreeCall(s, c).channels;
  }

  lemma RenewInv(s: Server, c: nat, n: nat)
    requires Inv(s) && c < |s.channels| && !IsActive(s.channels[c]) && s.channels[c].callNumber <= n
    requires s.channels[c].call.Some? ==> s.channels[c].callNumber < n
    ensures Inv(Renew(s, c, n))
  {
    var t := s;
    if s.channels[c].call.Some? {
      ResetInv(s, c);
      t := Reset(s, c);
    }
    ChannelInv(t, c, Renew(s, c, n).channels[c]);
  }

  lemma JoinInv(s: Server, c: nat, ch: Channel)
    requires Inv(s) && c < |s.channels| && History(ch)
    requires !IsWaiting(s.channels[c]) && IsWaiting(ch) && !IsActive(s.channels[c])
    requires !QuotaOK(s, s.serviceOf[c]) || s.idle == []
    ensures Inv(s.(channels := s.channels[c := ch], incoming := s.incoming + [c], nWaiting := s.nWaiting + 1))
  {
    QueueJoin(s.channels, s.incoming, c, ch);
  }

  /** A call that finds an idle process and quota is never one that waits already. */
  lemma NeverWaitsWithIdle(s: Server, c: nat)
    requires Inv(s) && c < |s.channels| && s.idle != [] && QuotaOK(s, s.serviceOf[c])
    ensures !IsWaiting(s.channels[c])
  {
  }

  lemma IdleHeadLeaves(procs: seq<Proc>, idle: seq<nat>, proc: Proc)
    requires IdleInv(procs, idle) && idle != [] && !proc.Idle?
    ensures idle[0] < |procs| && IdleInv(procs[idle[0] := proc], idle[1..])
  {
    assert idle[0] in idle;
    assert forall i :: 0 <= i < |idle| - 1 ==> idle[1..][i] == idle[i + 1];
    assert forall p :: p in idle <==> p == idle[0] || p in idle[1..];
  }

  lemma HandedFields(s: Server, c: nat)
    requires Typed(s) && c < |s.channels| && s.channels[c].call.Some? && s.channels[c].call.value.phase == Precall
    requires s.idle != [] && QuotaOK(s, s.serviceOf[c]) && !IsWaiting(s.channels[c])
    ensures var t, p := Attach(s, c), s.idle[0];
            var x := CountStart(s.(procs := s.procs[p := Handed(c)]), s.serviceOf[c]);
            && t == x.(channels := s.channels[c := t.channels[c]], idle := s.idle[1..])
            && IsActive(t.channels[c])
  {
  }

  lemma HandedParts(s: Server, c: nat)
    requires Inv(s) && c < |s.channels| && s.channels[c].call.Some? && s.channels[c].call.value.phase == Precall
    requires s.idle != [] && QuotaOK(s, s.serviceOf[c]) && !IsWaiting(s.channels[c])
    ensures var t := Attach(s, c);
            && Typed(t) && Histories(t.channels) && QueueInv(t.channels, t.incoming)
            && OwnerInv(t.channels, t.procs) && IdleInv(t.procs, t.idle)
  {
    HandedFields(s, c);
    IdleHeadLeaves(s.procs, s.idle, Handed(c));
    var t := Attach(s, c);
    HistoryStart(s.channels[c], t.channels[c]);
    OwnerStart(s.channels, s.procs, c, t.channels[c], s.idle[0], Handed(c));
  }

  lemma HandOverInv(s: Server, c: nat)
    requires Inv(s) && c < |s.channels| && s.channels[c].call.Some? && s.channels[c].call.value.phase == Precall
    requires s.idle != [] && QuotaOK(s, s.serviceOf[c])
    ensures Inv(Attach(s, c)) && IsActive(Attach(s, c).channels[c])
  {
    NeverWaitsWithIdle(s, c);
    HandedFields(s, c);
    HandedParts(s, c);
    assert s.idle[0] in s.idle;
    CountsStart(s, c, s.idle[0], Handed(c));
  }

  lemma AttachInv(s: Server, c: nat)
    requires Inv(s) && c < |s.channels| && s.channels[c].call.Some? && s.channels[c].call.value.phase == Precall
    ensures Inv(Attach(s, c))
  {
    if s.idle != [] && QuotaOK(s, s.serviceOf[c]) {
      HandOverInv(s, c);
    } else if !IsWaiting(s.channels[c]) {
      JoinInv(s, c, Attach(s, c).channels[c]);
    }
  }

  lemma ReceiveInv(s: Server, c: nat, n: nat, body: Body)
    requires Inv(s) && c < |s.channels|
    ensures Inv(Receive(s, c, n, body))
  {
    var ch := s.channels[c];
    if ch.callNumber <= n {
      var t := s;
      if ch.call.None? || (n != ch.callNumber && ch.call.value.phase != Active) {
        RenewInv(s, c, n);
        t := Renew(s, c, n);
      } else if n != ch.callNumber {
        CallErrorInv(s, c);
        return;
      }
      match body
      case Data(attach) =>
        if attach && !t.channels[c].call.value.error && t.channels[c].call.value.phase == Precall {
          AttachInv(t, c);
        }
      case Abort => CallErrorInv(t, c);
      case Other =>
    }
  }

  // ------------------------------------- the end of a call and the next one

  /** Process p between rx_EndCall and rx_GetCall: in no queue, executing nothing. */
  ghost predicate Between(s: Server, p: nat) {
    && Typed(s)
    && Histories(s.channels)
    && QueueInv(s.channels, s.incoming)
    && OwnerInv(s.channels, s.procs)
    && p < |s.procs| && s.procs[p].Idle? && p !in s.idle
    && NoDup(s.idle) && (forall r: nat :: r in s.idle <==> r < |s.procs| && s.procs[r].Idle? && r != p)
    && CountInv(s)
    && s.availProcs == |s.idle| + 1
    && s.nWaiting == |s.incoming|
  }

  function Ended(s: Server, p: nat): Server
    requires Typed(s) && p < |s.procs| && s.procs[p].Running?
    requires var c := s.procs[p].chan; s.channels[c].call.Some? && 0 < s.services[s.serviceOf[c]].running
  {
    var t := EndCall(s, p);
    t.(procs := t.procs[p := Idle])
  }

  lemma EndedBetween(s: Server, p: nat)
    requires Inv(s) && p < |s.procs| && s.procs[p].Running?
    ensures var c := s.procs[p].chan; s.channels[c].call.Some? && 0 < s.services[s.serviceOf[c]].running
    ensures Between(Ended(s, p), p)
  {
    var c := s.procs[p].chan;
    CountsEnd(s, c, p);
    var t := Ended(s, p);
    OwnerEnd(s.channels, s.procs, c, t.channels[c], p);
    assert t == CountEnd(s.(procs := s.procs[p := Idle]), s.serviceOf[c]).(channels := s.channels[c := t.channels[c]]);
  }

  /** Counters before the end of a call, between, and after the next start. */
  lemma StillConserving(s: Server, m: Server, t: Server, e: nat, g: nat, u: nat)
    requires e < |s.services| && g < |s.services| && u < |s.services|
    requires 0 < s.services[e].running && s.minDeficit <= s.availProcs
    requires var x := CountEnd(s, e); m.services == x.services && m.minDeficit == x.minDeficit && m.availProcs == x.availProcs
    requires var x := CountStart(m, g); t.services == x.services && t.minDeficit == x.minDeficit && t.availProcs == x.availProcs
    requires !QuotaOK(s, g) && QuotaOK(m, g) && !QuotaOK(s, u)
    ensures !QuotaOK(t, u)
  {
  }

  /** rx_EndCall by process p and its rx_GetCall, between which no other process runs. */
  ghost function Finish(s: Server, p: nat): Server
    requires Inv(s) && p < |s.procs| && s.procs[p].Running?
  {
    EndedBetween(s, p);
    GetCall(Ended(s, p), p)
  }

  lemma StartedQueue(s: Server, p: nat, k: nat)
    requires Between(s, p) && k == FirstEligible(s, 0) < |s.incoming|
    ensures var t := GetCall(s, p);
            && Typed(t) && Histories(t.channels) && QueueInv(t.channels, t.incoming) && t.nWaiting == |t.incoming|
            && forall x :: x in t.incoming ==> x in s.incoming
  {
    var c := s.incoming[k];
    assert c in s.incoming;
    var t := GetCall(s, p);
    HistoryStart(s.channels[c], t.channels[c]);
    QueueLeave(s.channels, s.incoming, c, t.channels[c]);
    WithoutKeeps(s.incoming, c);
  }

  lemma StartedOwners(s: Server, p: nat, k: nat)
    requires Between(s, p) && k == FirstEligible(s, 0) < |s.incoming|
    ensures var t := GetCall(s, p);
            OwnerInv(t.channels, t.procs) && IdleInv(t.procs, t.idle) && t.idle == s.idle
  {
    var c := s.incoming[k];
    assert c in s.incoming;
    OwnerStart(s.channels, s.procs, c, GetCall(s, p).channels[c], p, Running(c));
  }

  lemma StartedFields(s: Server, p: nat, k: nat)
    requires Typed(s) && p < |s.procs| && k == FirstEligible(s, 0) < |s.incoming|
    ensures var t, c := GetCall(s, p), s.incoming[k];
            var x := CountStart(s, s.serviceOf[c]);
            && t.services == x.services && t.minDeficit == x.minDeficit && t.availProcs == x.availProcs
            && t.procs == s.procs[p := Running(c)] && t.serviceOf == s.serviceOf && t.idle == s.idle
            && QuotaOK(s, s.serviceOf[c])
  {
    ActivatedFields(s, s.incoming[k], p, s.serviceOf[s.incoming[k]]);
  }

  lemma ActivatedFields(s: Server, c: nat, p: nat, svc: nat)
    requires c < |s.channels| && s.channels[c].call.Some? && p < |s.procs| && svc < |s.services|
    ensures var t, x := CountStart(Activate(LeaveQueue(s, c), c, p, Running(c)), svc), CountStart(s, svc);
            && t.services == x.services && t.minDeficit == x.minDeficit && t.availProcs == x.availProcs
            && t.procs == s.procs[p := Running(c)] && t.serviceOf == s.serviceOf && t.idle == s.idle
  {
  }

  lemma StartedCounts(s: Server, p: nat, k: nat)
    requires Typed(s) && CountInv(s) && p < |s.procs| && s.procs[p].Idle? && k == FirstEligible(s, 0) < |s.incoming|
    requires s.availProcs == |s.idle| + 1
    ensures CountInv(GetCall(s, p)) && GetCall(s, p).availProcs == |GetCall(s, p).idle|
  {
    StartedFields(s, p, k);
    CountsStart(s, s.incoming[k], p, Running(s.incoming[k]));
  }

  lemma GoIdle(s: Server, p: nat)
    requires Between(s, p) && FirstEligible(s, 0) == |s.incoming|
    ensures Inv(GetCall(s, p))
  {
    var t := GetCall(s, p);
    assert t.procs == s.procs;
    assert forall r :: r in t.idle <==> r in s.idle || r == p;
    forall c | c in t.incoming
      ensures !QuotaOK(t, t.serviceOf[c])
    {
      var j :| 0 <= j < |s.incoming| && s.incoming[j] == c;
      assert !QuotaOK(s, s.serviceOf[s.incoming[j]]);
    }
  }

  lemma EndedFields(s: Server, p: nat)
    requires Typed(s) && p < |s.procs| && s.procs[p].Running?
    requires var c := s.procs[p].chan; s.channels[c].call.Some? && 0 < s.services[s.serviceOf[c]].running
    ensures var m, x := Ended(s, p), CountEnd(s, s.serviceOf[s.procs[p].chan]);
            && m.services == x.services && m.minDeficit == x.minDeficit && m.availProcs == x.availProcs
            && m.incoming == s.incoming && m.serviceOf == s.serviceOf && m.idle == s.idle
  {
  }

  lemma FinishInv(s: Server, p: nat)
    requires Inv(s) && p < |s.procs| && s.procs[p].Running?
    ensures Inv(Finish(s, p))
  {
    EndedBetween(s, p);
    EndedFields(s, p);
    var m := Ended(s, p);
    if FirstEligible(m, 0) == |m.incoming| {
      GoIdle(m, p);
    } else {
      var k := FirstEligible(m, 0);
      StartedCore(m, p, k);
      StartedFields(m, p, k);
      FinishConserves(s, m, GetCall(m, p), k, s.serviceOf[s.procs[p].chan]);
    }
  }

  lemma StartedCore(m: Server, p: nat, k: nat)
    requires Between(m, p) && k == FirstEligible(m, 0) < |m.incoming|
    ensures Core(GetCall(m, p)) && forall x :: x in GetCall(m, p).incoming ==> x in m.incoming
  {
    StartedQueue(m, p, k);
    StartedOwners(m, p, k);
    StartedCounts(m, p, k);
  }

  /** After the end of a call of service e in s came m, and after the start of the call at k came t. */
  lemma FinishConserves(s: Server, m: Server, t: Server, k: nat, e: nat)
    requires Typed(s) && Typed(t) && Conserving(s) && s.minDeficit <= s.availProcs
    requires t.idle == s.idle && t.serviceOf == s.serviceOf && forall x :: x in t.incoming ==> x in s.incoming
    requires e < |s.services| && 0 < s.services[e].running
    requires var x := CountEnd(s, e); m.services == x.services && m.minDeficit == x.minDeficit && m.availProcs == x.availProcs
    requires k < |s.incoming| && QuotaOK(m, s.serviceOf[s.incoming[k]])
    requires var x := CountStart(m, s.serviceOf[s.incoming[k]]);
             t.services == x.services && t.minDeficit == x.minDeficit && t.availProcs == x.availProcs
    ensures Conserving(t)
  {
    if s.idle != [] {
      forall x | x in t.incoming
        ensures !QuotaOK(t, t.serviceOf[x])
      {
        assert s.incoming[k] in s.incoming && x in s.incoming;
        StillConserving(s, m, t, e, s.serviceOf[s.incoming[k]], s.serviceOf[x]);
      }
    }
  }

  // -------------------------------------------------------------------- runs

  datatype Label =
    | Arrive(c: nat, n: nat, body: Body) // a packet of call number n
    | Authenticated(c: nat) // a valid response to a challenge
    | Resume(p: nat) // a process woken with a call starts on it
    | End(p: nat, failed: bool) // rx_EndCall, then rx_GetCall
    | Fail(c: nat) // a timeout or a connection error
    | Expire(c: nat) // rxi_CheckCall frees a call that is not active

  predicate HasCall(s: Server, c: nat) {
    c < |s.channels| && s.channels[c].call.Some?
  }

  predicate Enabled(s: Server, l: Label) {
    match l
    case Arrive(c, n, _) => c < |s.channels| && 1 <= n
    case Authenticated(c) => HasCall(s, c) && s.channels[c].call.value.phase == Precall
    case Resume(p) => p < |s.procs| && s.procs[p].Handed?
    case End(p, _) => p < |s.procs| && s.procs[p].Running?
    case Fail(c) => HasCall(s, c)
    case Expire(c) => HasCall(s, c) && !IsActive(s.channels[c])
  }

  ghost function Step(s: Server, l: Label): Server
    requires Inv(s) && Enabled(s, l)
  {
    match l
    case Arrive(c, n, body) => Receive(s, c, n, body)
    case Authenticated(c) => Attach(s, c)
    case Resume(p) => s.(procs := s.procs[p := Running(s.procs[p].chan)])
    case End(p, failed) =>
      if failed then CallErrorInv(s, s.procs[p].chan); Finish(CallError(s, s.procs[p].chan), p)
      else Finish(s, p)
    case Fail(c) => CallError(s, c)
    case Expire(c) => FreeCall(s, c)
  }

  lemma ResumeInv(s: Server, p: nat)
    requires Inv(s) && p < |s.procs| && s.procs[p].Handed?
    ensures Inv(s.(procs := s.procs[p := Running(s.procs[p].chan)]))
  {
    var c := s.procs[p].chan;
    var ps := s.procs[p := Running(c)];
    assert forall r, d: nat :: 0 <= r < |ps| ==> Owns(ps[r], d) == Owns(s.procs[r], d);
    forall d | 0 <= d < |s.channels| && IsActive(s.channels[d])
      ensures exists r :: 0 <= r < |ps| && Owns(ps[r], d)
    {
      var r :| 0 <= r < |s.procs| && Owns(s.procs[r], d);
      assert Owns(ps[r], d);
    }
    forall v | 0 <= v < |s.services|
      ensures Busy(ps, s.serviceOf, v) == Busy(s.procs, s.serviceOf, v)
    {
      BusyUpdate(s.procs, s.serviceOf, v, p, Running(c));
    }
  }

  lemma StepInv(s: Server, l: Label)
    requires Inv(s) && Enabled(s, l)
    ensures Inv(Step(s, l))
  {
    match l
    case Arrive(c, n, body) => ReceiveInv(s, c, n, body);
    case Authenticated(c) => AttachInv(s, c);
    case Resume(p) => ResumeInv(s, p);
    case End(p, failed) =>
      if failed {
        CallErrorInv(s, s.procs[p].chan);
        FinishInv(CallError(s, s.procs[p].chan), p);
      } else {
        FinishInv(s, p);
      }
    case Fail(c) => CallErrorInv(s, c);
    case Expire(c) => FreeCallInv(s, c);
  }

  ghost predicate Run(s: Server, ls: seq<Label>, t: Server)
    requires Inv(s)
    decreases |ls|
  {
    if ls == [] then s == t
    else Enabled(s, ls[0]) && (StepInv(s, ls[0]); Run(Step(s, ls[0]), ls[1..], t))
  }

  lemma {:induction false} RunInv(s: Server, ls: seq<Label>, t: Server)
    requires Inv(s) && Run(s, ls, t)
    ensures Inv(t)
    decreases |ls|
  {
    if ls != [] {
      StepInv(s, ls[0]);
      RunInv(Step(s, ls[0]), ls[1..], t);
    }
  }

  /** History and configuration are never rewritten. */
  ghost predicate Extends(s: Server, t: Server) {
    && |s.channels| == |t.channels| && s.serviceOf == t.serviceOf
    && |s.procs| == |t.procs| && |s.services| == |t.services|
    && (forall c :: 0 <= c < |s.channels| ==>
          s.channels[c].executed <= t.channels[c].executed && s.channels[c].callNumber <= t.channels[c].callNumber)
    && (forall v :: 0 <= v < |s.services| ==> t.services[v] == s.services[v].(running := t.services[v].running))
  }

  /** Every call number executed or waiting to be executed came in a packet. */
  ghost predicate Requested(channels: seq<Channel>, seen: set<(nat, nat)>) {
    && (forall c, n :: 0 <= c < |channels| && n in channels[c].executed ==> (c, n) in seen)
    && (forall c :: 0 <= c < |channels| && channels[c].call.Some? && channels[c].call.value.phase == Precall ==>
          (c, channels[c].callNumber) in seen)
  }

  function SeenIn(l: Label): set<(nat, nat)> {
    if l.Arrive? then {(l.c, l.n)} else {}
  }

  lemma ActivateRequested(s: Server, c: nat, p: nat, proc: Proc, seen: set<(nat, nat)>)
    requires HasCall(s, c) && p < |s.procs| && Requested(s.channels, seen)
    requires (c, s.channels[c].callNumber) in seen
    ensures Requested(Activate(s, c, p, proc).channels, seen)
  {
  }

  lemma EndedExtends(s: Server, p: nat, seen: set<(nat, nat)>)
    requires Inv(s) && p < |s.procs| && s.procs[p].Running? && Requested(s.channels, seen)
    requires var c := s.procs[p].chan; s.channels[c].call.Some? && 0 < s.services[s.serviceOf[c]].running
    ensures Extends(s, Ended(s, p)) && Requested(Ended(s, p).channels, seen)
  {
  }

  lemma StartedExtends(m: Server, p: nat, seen: set<(nat, nat)>)
    requires Between(m, p) && Requested(m.channels, seen)
    ensures Extends(m, GetCall(m, p)) && Requested(GetCall(m, p).channels, seen)
  {
    var k := FirstEligible(m, 0);
    if k < |m.incoming| {
      QueuedWait(m.channels, m.incoming);
      var c := m.incoming[k];
      ActivateRequested(LeaveQueue(m, c), c, p, Running(c), seen);
    }
  }

  lemma FinishExtends(s: Server, p: nat, seen: set<(nat, nat)>)
    requires Inv(s) && p < |s.procs| && s.procs[p].Running? && Requested(s.channels, seen)
    ensures Extends(s, Finish(s, p)) && Requested(Finish(s, p).channels, seen)
  {
    EndedBetween(s, p);
    EndedExtends(s, p, seen);
    StartedExtends(Ended(s, p), p, seen);
    ExtendsTransitive(s, Ended(s, p), Finish(s, p));
  }

  lemma ResetExtends(s: Server, c: nat, seen: set<(nat, nat)>)
    requires HasCall(s, c) && Requested(s.channels, seen)
    ensures Extends(s, CallError(s, c)) && Requested(CallError(s, c).channels, seen)
    ensures Extends(s, FreeCall(s, c)) && Requested(FreeCall(s, c).channels, seen)
  {
  }

  lemma AttachExtends(s: Server, c: nat, seen: set<(nat, nat)>)
    requires Inv(s) && HasCall(s, c) && s.channels[c].call.value.phase == Precall && Requested(s.channels, seen)
    ensures Extends(s, Attach(s, c)) && Requested(Attach(s, c).channels, seen)
  {
    if s.idle != [] && QuotaOK(s, s.serviceOf[c]) {
      NeverWaitsWithIdle(s, c);
      ActivateRequested(s, c, s.idle[0], Handed(c), seen);
    }
  }

  lemma DispatchExtends(s: Server, c: nat, body: Body, seen: set<(nat, nat)>)
    requires Inv(s) && HasCall(s, c) && Requested(s.channels, seen)
    ensures Extends(s, Dispatch(s, c, body)) && Requested(Dispatch(s, c, body).channels, seen)
  {
    match body
    case Data(attach) =>
      if s.channels[c].call.value.phase == Precall { AttachExtends(s, c, seen); }
    case Abort => ResetExtends(s, c, seen);
    case Other =>
  }

  lemma RenewExtends(s: Server, c: nat, n: nat, seen: set<(nat, nat)>)
    requires c < |s.channels| && s.channels[c].callNumber <= n && Requested(s.channels, seen)
    ensures Extends(s, Renew(s, c, n)) && Requested(Renew(s, c, n).channels, seen + {(c, n)})
  {
  }

  lemma ExtendsTransitive(s: Server, t: Server, u: Server)
    requires Extends(s, t) && Extends(t, u)
    ensures Extends(s, u)
  {
  }

  lemma ReceiveExtends(s: Server, c: nat, n: nat, body: Body, seen: set<(nat, nat)>)
    requires Inv(s) && c < |s.channels| && Requested(s.channels, seen)
    ensures Extends(s, Receive(s, c, n, body)) && Requested(Receive(s, c, n, body).channels, seen + {(c, n)})
  {
    var ch := s.channels[c];
    if ch.callNumber <= n {
      if ch.call.None? || (n != ch.callNumber && ch.call.value.phase != Active) {
        var t := Renew(s, c, n);
        RenewInv(s, c, n);
        RenewExtends(s, c, n, seen);
        DispatchExtends(t, c, body, seen + {(c, n)});
        ExtendsTransitive(s, t, Dispatch(t, c, body));
      } else if n != ch.callNumber {
        ResetExtends(s, c, seen);
      } else {
        DispatchExtends(s, c, body, seen);
      }
    }
  }

  lemma StepExtends(s: Server, l: Label, seen: set<(nat, nat)>)
    requires Inv(s) && Enabled(s, l) && Requested(s.channels, seen)
    ensures Extends(s, Step(s, l)) && Requested(Step(s, l).channels, seen + SeenIn(l))
  {
    match l
    case Arrive(c, n, body) => ReceiveExtends(s, c, n, body, seen);
    case Authenticated(c) => AttachExtends(s, c, seen);
    case Resume(p) =>
    case End(p, failed) =>
      if failed {
        var c := s.procs[p].chan;
        CallErrorInv(s, c);
        ResetExtends(s, c, seen);
        FinishExtends(CallError(s, c), p, seen);
      } else {
        FinishExtends(s, p, seen);
      }
    case Fail(c) => ResetExtends(s, c, seen);
    case Expire(c) => ResetExtends(s, c, seen);
  }

  lemma {:induction false} RunExtends(s: Server, ls: seq<Label>, t: Server, seen: set<(nat, nat)>)
    requires Inv(s) && Run(s, ls, t) && Requested(s.channels, seen)
    ensures Extends(s, t)
    ensures Requested(t.channels, seen + set l, x | l in ls && x in SeenIn(l) :: x)
    decreases |ls|
  {
    if ls != [] {
      StepInv(s, ls[0]);
      StepExtends(s, ls[0], seen);
      RunExtends(Step(s, ls[0]), ls[1..], t, seen + SeenIn(ls[0]));
    }
  }

  // ----------------------------------------------------------- main results

  /** The server when rx_StartServer has created its n processes and no call has arrived. */
  function Init(serviceOf: seq<nat>, services: seq<Service>, n: nat): Server {
    Server(serviceOf, seq(|serviceOf|, _ => Channel(0, None, [])), services, seq(n, _ => Idle),
           seq(n, i => i), [], n, Deficit(services), 0)
  }

  ghost predicate Config(serviceOf: seq<nat>, services: seq<Service>, n: nat) {
    && (forall c :: 0 <= c < |serviceOf| ==> serviceOf[c] < |services|)
    && (forall v :: 0 <= v < |services| ==> services[v].running == 0)
    && Deficit(services) <= n
  }

  lemma {:induction false} NoneBusy(procs: seq<Proc>, serviceOf: seq<nat>, svc: nat)
    requires forall p :: 0 <= p < |procs| ==> procs[p].Idle?
    ensures Busy(procs, serviceOf, svc) == 0
    decreases |procs|
  {
    if procs != [] {
      NoneBusy(procs[..|procs| - 1], serviceOf, svc);
    }
  }

  lemma {:induction false} NoneRunning(services: seq<Service>)
    requires forall v :: 0 <= v < |services| ==> services[v].running == 0
    ensures TotalRunning(services) == 0
    decreases |services|
  {
    if services != [] {
      NoneRunning(services[..|services| - 1]);
    }
  }

  lemma InitInv(serviceOf: seq<nat>, services: seq<Service>, n: nat)
    requires Config(serviceOf, services, n)
    ensures Inv(Init(serviceOf, services, n))
  {
    var s := Init(serviceOf, services, n);
    NoneRunning(services);
    forall v | 0 <= v < |services|
      ensures Busy(s.procs, serviceOf, v) == 0
    {
      NoneBusy(s.procs, serviceOf, v);
    }
    forall p: nat | p < n
      ensures p in s.idle
    {
      assert s.idle[p] == p;
    }
  }

  ghost predicate Runs(serviceOf: seq<nat>, services: seq<Service>, n: nat, ls: seq<Label>, t: Server) {
    Config(serviceOf, services, n) && (InitInv(serviceOf, services, n); Run(Init(serviceOf, services, n), ls, t))
  }

  /**
   * In every run the call numbers executed on a channel strictly increase, so none is
   * executed twice; each of them was asked for by a packet; and an active call is in
   * the hands of exactly one process.
   */
  lemma AtMostOnce(serviceOf: seq<nat>, services: seq<Service>, n: nat, ls: seq<Label>, t: Server)
    requires Runs(serviceOf, services, n, ls, t)
    ensures forall c :: 0 <= c < |t.channels| ==> Increasing(t.channels[c].executed)
    ensures forall c, k :: 0 <= c < |t.channels| && k in t.channels[c].executed ==>
              exists l :: l in ls && l.Arrive? && l.c == c && l.n == k
    ensures forall c :: 0 <= c < |t.channels| && IsActive(t.channels[c]) ==>
              exists p :: 0 <= p < |t.procs| && Owns(t.procs[p], c)
    ensures forall p, r :: 0 <= p < |t.procs| && 0 <= r < |t.procs| && !t.procs[p].Idle? && !t.procs[r].Idle? && p != r ==>
              t.procs[p].chan != t.procs[r].chan
  {
    InitInv(serviceOf, services, n);
    var s := Init(serviceOf, services, n);
    RunInv(s, ls, t);
    RunExtends(s, ls, t, {});
    forall c, k | 0 <= c < |t.channels| && k in t.channels[c].executed
      ensures exists l :: l in ls && l.Arrive? && l.c == c && l.n == k
    {
      var l :| l in ls && (c, k) in SeenIn(l);
    }
  }

  /** A call once executed stays in the history, whatever happens to the call structure. */
  lemma HistoryIsKept(s: Server, ls: seq<Label>, t: Server)
    requires Inv(s) && Run(s, ls, t)
    ensures forall c :: 0 <= c < |s.channels| ==> c < |t.channels| && s.channels[c].executed <= t.channels[c].executed
  {
    var seen := (set c, k | 0 <= c < |s.channels| && k in s.channels[c].executed :: (c, k))
              + (set c: nat | c < |s.channels| :: (c, s.channels[c].callNumber));
    assert Requested(s.channels, seen);
    RunExtends(s, ls, t, seen);
  }

  /** In every run no process is idle while a queued call's service passes its quota. */
  lemma WorkConservation(serviceOf: seq<nat>, services: seq<Service>, n: nat, ls: seq<Label>, t: Server)
    requires Runs(serviceOf, services, n, ls, t)
    ensures Typed(t)
    ensures t.idle == [] || forall c :: c in t.incoming ==> !QuotaOK(t, t.serviceOf[c])
    ensures forall c: nat :: c in t.incoming <==> c < |t.channels| && IsWaiting(t.channels[c])
  {
    InitInv(serviceOf, services, n);
    RunInv(Init(serviceOf, services, n), ls, t);
  }

  /** The incrementally kept counters are exact in every run, and the quotas are respected. */
  lemma CountersExact(serviceOf: seq<nat>, services: seq<Service>, n: nat, ls: seq<Label>, t: Server)
    requires Runs(serviceOf, services, n, ls, t)
    ensures t.minDeficit == Deficit(t.services)
    ensures t.availProcs == |t.idle| >= t.minDeficit
    ensures t.nWaiting == |t.incoming|
    ensures forall v :: 0 <= v < |t.services| ==>
              t.services[v].running == Busy(t.procs, t.serviceOf, v) <= t.services[v].maxProcs
  {
    InitInv(serviceOf, services, n);
    RunInv(Init(serviceOf, services, n), ls, t);
  }

  /** minProcs is a guarantee: a call of a service below it starts at once. */
  lemma MinProcsGuaranteed(s: Server, c: nat)
    requires Inv(s) && HasCall(s, c) && s.channels[c].call.value.phase == Precall
    requires var v := s.services[s.serviceOf[c]]; v.running < v.minProcs && v.running < v.maxProcs
    ensures IsActive(Attach(s, c).channels[c])
  {
    SumsUpdate(s.services, s.serviceOf[c], s.services[s.serviceOf[c]]);
    HandOverInv(s, c);
  }

  function MinTotal(services: seq<Service>): nat {
    if services == [] then 0 else MinTotal(services[..|services| - 1]) + services[|services| - 1].minProcs
  }

  function MaxDiff(services: seq<Service>): nat {
    if services == [] then 0
    else
      var v := services[|services| - 1];
      Max(MaxDiff(services[..|services| - 1]), v.maxProcs - v.minProcs)
  }

  /** The number of processes rxi_StartServerProcs provides. */
  function PoolSize(services: seq<Service>): nat {
    MinTotal(services) + MaxDiff(services)
  }

  lemma {:induction false} PoolCovers(services: seq<Service>, svc: nat)
    requires svc < |services|
    requires forall v :: 0 <= v < |services| && v != svc ==> services[v].running == 0
    ensures TotalRunning(services) == services[svc].running
    ensures Deficit(services) == MinTotal(services) - services[svc].minProcs + Shortfall(services[svc])
    ensures services[svc].maxProcs - services[svc].minProcs <= MaxDiff(services)
    ensures services[svc].minProcs <= MinTotal(services)
    decreases |services|
  {
    var n := |services| - 1;
    if svc == n {
      NoneRunning(services[..n]);
      DeficitAtRest(services[..n]);
    } else {
      PoolCovers(services[..n], svc);
    }
  }

  lemma {:induction false} DeficitAtRest(services: seq<Service>)
    requires forall v :: 0 <= v < |services| ==> services[v].running == 0
    ensures Deficit(services) == MinTotal(services)
    decreases |services|
  {
    if services != [] {
      DeficitAtRest(services[..|services| - 1]);
    }
  }

  /** maxProcs is reachable: with the pool of start-up, a service that runs alone starts every call below it at once. */
  lemma MaxProcsReachable(s: Server, c: nat)
    requires Inv(s) && HasCall(s, c) && s.channels[c].call.value.phase == Precall
    requires PoolSize(s.services) <= |s.procs|
    requires forall v :: 0 <= v < |s.services| && v != s.serviceOf[c] ==> s.services[v].running == 0
    requires var v := s.services[s.serviceOf[c]]; v.running < v.maxProcs
    ensures IsActive(Attach(s, c).channels[c])
  {
    PoolCovers(s.services, s.serviceOf[c]);
    HandOverInv(s, c);
  }

  lemma {:induction false} PoolSizeStable(a: seq<Service>, b: seq<Service>)
    requires |a| == |b| && forall v :: 0 <= v < |a| ==> b[v] == a[v].(running := b[v].running)
    ensures MinTotal(a) == MinTotal(b) && MaxDiff(a) == MaxDiff(b)
    decreases |a|
  {
    if a != [] {
      PoolSizeStable(a[..|a| - 1], b[..|b| - 1]);
    }
  }

  /** Both promises about processes, in every state of every run. */
  lemma QuotasInEveryRun(serviceOf: seq<nat>, services: seq<Service>, n: nat, ls: seq<Label>, t: Server, c: nat)
    requires Runs(serviceOf, services, n, ls, t)
    requires HasCall(t, c) && t.channels[c].call.value.phase == Precall
    ensures Typed(t)
    ensures var v := t.services[t.serviceOf[c]];
            v.running < v.minProcs && v.running < v.maxProcs ==> IsActive(Attach(t, c).channels[c])
    ensures var v := t.services[t.serviceOf[c]];
            PoolSize(services) <= n && v.running < v.maxProcs
            && (forall u :: 0 <= u < |t.services| && u != t.serviceOf[c] ==> t.services[u].running == 0) ==>
              IsActive(Attach(t, c).channels[c])
  {
    InitInv(serviceOf, services, n);
    var s := Init(serviceOf, services, n);
    RunInv(s, ls, t);
    RunExtends(s, ls, t, {});
    PoolSizeStable(services, t.services);
    var v := t.services[t.serviceOf[c]];
    if v.running < v.minProcs && v.running < v.maxProcs {
      MinProcsGuaranteed(t, c);
    }
    if PoolSize(services) <= n && v.running < v.maxProcs
      && (forall u :: 0 <= u < |t.services| && u != t.serviceOf[c] ==> t.services[u].running == 0) {
      MaxProcsReachable(t, c);
    }
  }
}
