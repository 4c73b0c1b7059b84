/**
 * What becomes of a packet at the server, told of the call on its channel, the queue and the
 * processes, in every state of every run; and that no request is forgotten.
 */
module RxArrivals {
  import opened RxBase
  import opened RxServer

  /** A process is idle, and another call of the service is within both quotas. */
  predicate MayStart(s: Server, svc: nat)
    requires svc < |s.services|
  {
    && s.idle != [] && s.services[svc].running < s.services[svc].maxProcs
    && (s.services[svc].running < s.services[svc].minProcs || Deficit(s.services) < |s.idle|)
  }

  /** Below minProcs there is always a process for a call. */
  lemma BelowMinimum(s: Server, svc: nat)
    requires Inv(s) && svc < |s.services|
    ensures MayStart(s, svc) <==> s.idle != [] && QuotaOK(s, svc)
    ensures s.services[svc].running < s.services[svc].minProcs && s.services[svc].running < s.services[svc].maxProcs ==>
              MayStart(s, svc)
  {
    SumsUpdate(s.services, svc, s.services[svc]);
  }

  /** The queue without a call that leaves it. */
  function QueueWithout(q: seq<nat>, c: nat): seq<nat> {
    if c in q then Without(q, c) else q
  }

  /** Nothing but the call on one channel and the queue of waiting calls. */
  predicate OnlyCall(s: Server, t: Server, c: nat, call: Option<CallRec>, number: nat, incoming: seq<nat>)
    requires c < |s.channels|
  {
    && t.channels == s.channels[c := s.channels[c].(call := call, callNumber := number)]
    && t.incoming == incoming
    && t.procs == s.procs && t.idle == s.idle && t.services == s.services
  }

  /** The call of number n on channel c goes to the process that has been idle the longest. */
  predicate Begun(s: Server, t: Server, c: nat, n: nat, error: bool)
    requires c < |s.channels| && s.idle != [] && s.idle[0] < |s.procs|
  {
    && t.channels == s.channels[c := Channel(n, Some(CallRec(Active, false, error)), s.channels[c].executed + [n])]
    && t.procs == s.procs[s.idle[0] := Handed(c)] && t.idle == s.idle[1..]
    && t.incoming == QueueWithout(s.incoming, c)
  }

  /** The call a packet of number n finds or makes. */
  function CallFor(ch: Channel, n: nat): CallRec {
    if ch.call.Some? && ch.callNumber == n then ch.call.value else CallRec(Precall, false, false)
  }

  /** What a packet does that is not for an old call. */
  predicate Delivered(s: Server, t: Server, c: nat, n: nat, body: Body)
    requires Typed(s) && c < |s.channels|
  {
    var rec := CallFor(s.channels[c], n);
    var stays := if s.channels[c].call.Some? && s.channels[c].callNumber == n then s.incoming else QueueWithout(s.incoming, c);
    match body
    case Other => OnlyCall(s, t, c, Some(rec), n, stays)
    case Abort => OnlyCall(s, t, c, Some(CallRec(rec.phase, false, true)), n, QueueWithout(s.incoming, c))
    case Data(attach) =>
      if !attach || rec.error || rec.phase != Precall then OnlyCall(s, t, c, Some(rec), n, stays)
      else if MayStart(s, s.serviceOf[c]) then Begun(s, t, c, n, false)
      else OnlyCall(s, t, c, Some(CallRec(Precall, true, false)), n, if rec.waitProc then stays else stays + [c])
  }

  lemma QueueTells(s: Server, c: nat)
    requires Inv(s) && c < |s.channels|
    ensures c in s.incoming <==> IsWaiting(s.channels[c])
  {
  }

  lemma AttachedExactly(s: Server, c: nat)
    requires Inv(s) && HasCall(s, c) && s.channels[c].call.value.phase == Precall
    ensures var t, n, rec := Attach(s, c), s.channels[c].callNumber, s.channels[c].call.value;
            if MayStart(s, s.serviceOf[c]) then Begun(s, t, c, n, rec.error)
            else OnlyCall(s, t, c, Some(CallRec(Precall, true, rec.error)), n, if rec.waitProc then s.incoming else s.incoming + [c])
  {
    BelowMinimum(s, s.serviceOf[c]);
    QueueTells(s, c);
    if MayStart(s, s.serviceOf[c]) {
      NeverWaitsWithIdle(s, c);
    }
  }

  lemma RenewedExactly(s: Server, c: nat, n: nat)
    requires Inv(s) && c < |s.channels|
    ensures OnlyCall(s, Renew(s, c, n), c, Some(CallRec(Precall, false, false)), n, QueueWithout(s.incoming, c))
    ensures Renew(s, c, n).serviceOf == s.serviceOf
  {
    QueueTells(s, c);
  }

  lemma FailedExactly(s: Server, c: nat)
    requires Inv(s) && HasCall(s, c)
    ensures OnlyCall(s, CallError(s, c), c, Some(CallRec(s.channels[c].call.value.phase, false, true)), s.channels[c].callNumber,
                     QueueWithout(s.incoming, c))
  {
    QueueTells(s, c);
  }

  lemma DispatchedExactly(s: Server, c: nat, body: Body)
    requires Inv(s) && HasCall(s, c)
    ensures Delivered(s, Dispatch(s, c, body), c, s.channels[c].callNumber, body)
  {
    match body
    case Data(attach) =>
      if attach && !s.channels[c].call.value.error && s.channels[c].call.value.phase == Precall { AttachedExactly(s, c); }
    case Abort => FailedExactly(s, c);
    case Other =>
  }

  lemma RenewedDelivers(s: Server, u: Server, t: Server, c: nat, n: nat, body: Body)
    requires Typed(s) && Typed(u) && c < |s.channels| && !(s.channels[c].call.Some? && s.channels[c].callNumber == n)
    requires OnlyCall(s, u, c, Some(CallRec(Precall, false, false)), n, QueueWithout(s.incoming, c)) && u.serviceOf == s.serviceOf
    requires c !in u.incoming && Delivered(u, t, c, n, body)
    ensures Delivered(s, t, c, n, body)
  {
  }

  /**
   * In every run a packet of an old call changes nothing, one of a newer call puts an active call in
   * error, and any other finds or makes its call: a request that may start has a process at once,
   * and one that may not is the last in the queue.
   */
  predicate Arrived(s: Server, t: Server, c: nat, n: nat, body: Body)
    requires Typed(s) && c < |s.channels|
  {
    var ch := s.channels[c];
    if n < ch.callNumber then t == s
    else if IsActive(ch) && ch.callNumber < n then
      OnlyCall(s, t, c, Some(CallRec(Active, false, true)), ch.callNumber, s.incoming)
    else Delivered(s, t, c, n, body)
  }

  lemma ReceivedExactly(s: Server, c: nat, n: nat, body: Body)
    requires Inv(s) && c < |s.channels|
    ensures Arrived(s, Receive(s, c, n, body), c, n, body)
  {
    var ch := s.channels[c];
    if ch.callNumber <= n {
      if ch.call.None? || (n != ch.callNumber && ch.call.value.phase != Active) {
        var u := Renew(s, c, n);
        RenewInv(s, c, n);
        RenewedExactly(s, c, n);
        DispatchedExactly(u, c, body);
        QueueTells(u, c);
        RenewedDelivers(s, u, Receive(s, c, n, body), c, n, body);
      } else if n != ch.callNumber {
        FailedExactly(s, c);
        QueueTells(s, c);
      } else {
        DispatchedExactly(s, c, body);
      }
    }
  }

  lemma InvOf(serviceOf: seq<nat>, services: seq<Service>, n: nat, ls: seq<Label>, s: Server)
    requires Runs(serviceOf, services, n, ls, s)
    ensures Inv(s)
  {
    InitInv(serviceOf, services, n);
    RunInv(Init(serviceOf, services, n), ls, s);
  }

  lemma ArrivesExactly(serviceOf: seq<nat>, services: seq<Service>, m: nat, ls: seq<Label>, s: Server, c: nat, n: nat, body: Body)
    requires Runs(serviceOf, services, m, ls, s) && c < |s.channels| && 1 <= n
    ensures Inv(s) && Arrived(s, Step(s, Arrive(c, n, body)), c, n, body)
  {
    InvOf(serviceOf, services, m, ls, s);
    ReceivedExactly(s, c, n, body);
  }

  /** In every run the request of a new call of a service below minProcs is executed at once. */
  lemma StartsAtOnce(serviceOf: seq<nat>, services: seq<Service>, m: nat, ls: seq<Label>, s: Server, c: nat, n: nat)
    requires Runs(serviceOf, services, m, ls, s) && c < |s.channels| && 1 <= n
    requires Typed(s) && !IsActive(s.channels[c]) && s.channels[c].callNumber <= n
    requires s.channels[c].call.Some? ==> s.channels[c].callNumber < n
    requires var v := s.services[s.serviceOf[c]]; v.running < v.minProcs && v.running < v.maxProcs
    ensures Inv(s) && var t := Step(s, Arrive(c, n, Data(true)));
            && t.channels[c] == Channel(n, Some(CallRec(Active, false, false)), s.channels[c].executed + [n])
            && s.idle != [] && t.procs == s.procs[s.idle[0] := Handed(c)]
  {
    InvOf(serviceOf, services, m, ls, s);
    ReceivedExactly(s, c, n, Data(true));
    BelowMinimum(s, s.serviceOf[c]);
  }

  // -------------------------------------------------------------- the next call

  /** The services once a call of one of them has ended. */
  function Lowered(services: seq<Service>, e: nat): seq<Service>
    requires e < |services| && 0 < services[e].running
  {
    services[e := services[e].(running := services[e].running - 1)]
  }

  /** With that many processes to spare another call of the service is within both quotas. */
  predicate Fits(services: seq<Service>, spare: nat, svc: nat)
    requires svc < |services|
  {
    && services[svc].running < services[svc].maxProcs
    && (services[svc].running < services[svc].minProcs || Deficit(services) < spare)
  }

  function Dallying(ch: Channel): Channel
    requires ch.call.Some?
  {
    ch.(call := Some(ch.call.value.(phase := Dally)))
  }

  function Executing(ch: Channel): Channel
    requires ch.call.Some?
  {
    ch.(call := Some(ch.call.value.(phase := Active, waitProc := false)), executed := ch.executed + [ch.callNumber])
  }

  /**
   * The process that ends a call takes the first queued one that fits, in the order of the queue,
   * and if there is none it is the last of the idle.
   */
  predicate TookNext(s: Server, t: Server, p: nat, c: nat, k: nat)
    requires Typed(s) && p < |s.procs| && HasCall(s, c) && k <= |s.incoming| && 0 < s.services[s.serviceOf[c]].running
  {
    var services := Lowered(s.services, s.serviceOf[c]);
    var ended := s.channels[c := Dallying(s.channels[c])];
    && (forall j :: 0 <= j < k ==> !Fits(services, |s.idle| + 1, s.serviceOf[s.incoming[j]]))
    && if k == |s.incoming|
       then t.channels == ended && t.procs == s.procs[p := Idle] && t.idle == s.idle + [p] && t.incoming == s.incoming
       else var d := s.incoming[k];
            && Fits(services, |s.idle| + 1, s.serviceOf[d])
            && t.channels == ended[d := Executing(ended[d])] && t.procs == s.procs[p := Running(d)]
            && t.idle == s.idle && t.incoming == s.incoming[..k] + s.incoming[k + 1..]
  }

  lemma WithoutAt(q: seq<nat>, k: nat)
    requires NoDup(q) && k < |q|
    ensures Without(q, q[k]) == q[..k] + q[k + 1..]
  {
    var j := IndexOf(q, q[k]);
    assert j == k;
  }

  lemma EndedFits(s: Server, p: nat, svc: nat)
    requires Inv(s) && p < |s.procs| && s.procs[p].Running? && svc < |s.services|
    requires var c := s.procs[p].chan; s.channels[c].call.Some? && 0 < s.services[s.serviceOf[c]].running
    ensures QuotaOK(Ended(s, p), svc) <==> Fits(Lowered(s.services, s.serviceOf[s.procs[p].chan]), |s.idle| + 1, svc)
  {
    EndedBetween(s, p);
  }

  lemma FinishedExactly(s: Server, p: nat) returns (k: nat)
    requires Inv(s) && p < |s.procs| && s.procs[p].Running?
    ensures var c := s.procs[p].chan;
            HasCall(s, c) && 0 < s.services[s.serviceOf[c]].running && k <= |s.incoming| && TookNext(s, Finish(s, p), p, c, k)
  {
    EndedBetween(s, p);
    var c, m := s.procs[p].chan, Ended(s, p);
    k := FirstEligible(m, 0);
    forall j | 0 <= j < |s.incoming|
      ensures QuotaOK(m, s.serviceOf[s.incoming[j]]) <==>
                Fits(Lowered(s.services, s.serviceOf[c]), |s.idle| + 1, s.serviceOf[s.incoming[j]])
    {
      EndedFits(s, p, s.serviceOf[s.incoming[j]]);
    }
    if k < |s.incoming| {
      WithoutAt(s.incoming, k);
    }
  }

  /** In every run the end of a call hands its process on like this. */
  lemma FinishesExactly(serviceOf: seq<nat>, services: seq<Service>, m: nat, ls: seq<Label>, s: Server, p: nat) returns (k: nat)
    requires Runs(serviceOf, services, m, ls, s) && p < |s.procs| && s.procs[p].Running?
    ensures Inv(s)
    ensures var c := s.procs[p].chan;
            HasCall(s, c) && 0 < s.services[s.serviceOf[c]].running && k <= |s.incoming| &&
            TookNext(s, Step(s, End(p, false)), p, c, k)
  {
    InvOf(serviceOf, services, m, ls, s);
    k := FinishedExactly(s, p);
  }

  /** A process that ends its call with an error puts it in error first. */
  lemma FailedFinish(s: Server, p: nat) returns (u: Server, k: nat)
    requires Inv(s) && p < |s.procs| && s.procs[p].Running?
    ensures var c := s.procs[p].chan;
            && HasCall(s, c) && OnlyCall(s, u, c, Some(CallRec(Active, false, true)), s.channels[c].callNumber, s.incoming)
            && u.serviceOf == s.serviceOf && Typed(u)
            && 0 < u.services[u.serviceOf[c]].running && k <= |u.incoming| && TookNext(u, Step(s, End(p, true)), p, c, k)
  {
    var c := s.procs[p].chan;
    CallErrorInv(s, c);
    FailedExactly(s, c);
    QueueTells(s, c);
    u := CallError(s, c);
    k := FinishedExactly(u, p);
  }

  // ------------------------------------------------------------ timeouts and frees

  /** A call that is freed leaves the queue, and its number is passed if it was executed. */
  lemma ExpiresExactly(s: Server, c: nat)
    requires Inv(s) && Enabled(s, Expire(c))
    ensures OnlyCall(s, Step(s, Expire(c)), c, None,
                     s.channels[c].callNumber + One(s.channels[c].callNumber in s.channels[c].executed), QueueWithout(s.incoming, c))
  {
    QueueTells(s, c);
  }

  /** A call that fails leaves the queue and is in error, and keeps its phase. */
  lemma FailsExactly(s: Server, c: nat)
    requires Inv(s) && Enabled(s, Fail(c))
    ensures OnlyCall(s, Step(s, Fail(c)), c, Some(CallRec(s.channels[c].call.value.phase, false, true)),
                     s.channels[c].callNumber, QueueWithout(s.incoming, c))
  {
    FailedExactly(s, c);
  }

  /** A valid response to a challenge has the call started or queued like a packet that may attach. */
  lemma AuthenticatedExactly(s: Server, c: nat)
    requires Inv(s) && Enabled(s, Authenticated(c))
    ensures var t, n, rec := Step(s, Authenticated(c)), s.channels[c].callNumber, s.channels[c].call.value;
            if MayStart(s, s.serviceOf[c]) then Begun(s, t, c, n, rec.error)
            else OnlyCall(s, t, c, Some(CallRec(Precall, true, rec.error)), n, if rec.waitProc then s.incoming else s.incoming + [c])
  {
    AttachedExactly(s, c);
  }

  lemma RunningEnds(s: Server, p: nat, c: nat) returns (t: Server)
    requires Inv(s) && p < |s.procs| && s.procs[p] == Running(c)
    ensures Enabled(s, End(p, false)) && t == Step(s, End(p, false)) && Inv(t)
    ensures c < |t.channels| == |s.channels| && t.channels[c].callNumber == s.channels[c].callNumber
    ensures t.channels[c].call.Some? && t.channels[c].call.value.phase == Dally
  {
    StepInv(s, End(p, false));
    t := Step(s, End(p, false));
    var k := FinishedExactly(s, p);
    EndedNotQueued(s, c, k);
  }

  lemma OneStep(s: Server, l: Label)
    requires Inv(s) && Enabled(s, l)
    ensures Run(s, [l], Step(s, l))
  {
    StepInv(s, l);
    assert [l][1..] == [] && Run(Step(s, l), [], Step(s, l));
  }

  lemma TwoSteps(s: Server, k: Label, l: Label)
    requires Inv(s) && Enabled(s, k) && Inv(Step(s, k)) && Enabled(Step(s, k), l)
    ensures Run(s, [k, l], Step(Step(s, k), l))
  {
    OneStep(Step(s, k), l);
    assert [k, l][1..] == [l];
  }

  /** In every run a call in the hands of a process can be ended in at most two steps of that process. */
  lemma ActiveCanEnd(serviceOf: seq<nat>, services: seq<Service>, m: nat, ls: seq<Label>, s: Server, c: nat)
    returns (more: seq<Label>, t: Server)
    requires Runs(serviceOf, services, m, ls, s) && c < |s.channels| && IsActive(s.channels[c])
    ensures |more| <= 2 && Inv(s) && Run(s, more, t)
    ensures c < |t.channels| && t.channels[c].callNumber == s.channels[c].callNumber && t.channels[c].call.Some?
    ensures t.channels[c].call.value.phase == Dally
  {
    InvOf(serviceOf, services, m, ls, s);
    var p :| 0 <= p < |s.procs| && Owns(s.procs[p], c);
    if s.procs[p].Running? {
      t := RunningEnds(s, p, c);
      OneStep(s, End(p, false));
      more := [End(p, false)];
    } else {
      StepInv(s, Resume(p));
      t := RunningEnds(Step(s, Resume(p)), p, c);
      TwoSteps(s, Resume(p), End(p, false));
      more := [Resume(p), End(p, false)];
    }
  }

  lemma EndedNotQueued(s: Server, c: nat, k: nat)
    requires Inv(s) && c < |s.channels| && IsActive(s.channels[c])
    ensures k < |s.incoming| ==> s.incoming[k] != c
  {
    QueueTells(s, c);
  }

  // ------------------------------------------------------ no request is forgotten

  /** The request of call n has been executed or overtaken, or its call is in error or waits for a process. */
  predicate Minded(ch: Channel, n: nat) {
    || n in ch.executed
    || n < ch.callNumber
    || (ch.callNumber == n && ch.call.Some? && (ch.call.value.error || ch.call.value.waitProc))
  }

  /** The call is freed before it was executed. */
  predicate GivesUp(s: Server, l: Label, c: nat, n: nat)
    requires c < |s.channels|
  {
    l == Expire(c) && s.channels[c].callNumber == n && n !in s.channels[c].executed
  }

  lemma ArrivalMinded(s: Server, c: nat, n: nat)
    requires Inv(s) && c < |s.channels| && !(IsActive(s.channels[c]) && s.channels[c].callNumber < n)
    ensures |Receive(s, c, n, Data(true)).channels| == |s.channels| && Minded(Receive(s, c, n, Data(true)).channels[c], n)
  {
    ReceivedExactly(s, c, n, Data(true));
  }

  lemma OnlyCallMinds(s: Server, t: Server, d: nat, call: Option<CallRec>, number: nat, incoming: seq<nat>, c: nat, n: nat)
    requires d < |s.channels| && c < |s.channels| && Minded(s.channels[c], n) && OnlyCall(s, t, d, call, number, incoming)
    requires s.channels[d].callNumber <= number
    requires number == s.channels[d].callNumber && s.channels[d].call.Some? ==>
               call.Some? && (s.channels[d].call.value.error ==> call.value.error) &&
               (s.channels[d].call.value.waitProc ==> call.value.waitProc || call.value.error)
    ensures |t.channels| == |s.channels| && Minded(t.channels[c], n)
  {
  }

  lemma DeliveredMinds(s: Server, t: Server, d: nat, m: nat, body: Body, c: nat, n: nat)
    requires Typed(s) && d < |s.channels| && s.channels[d].callNumber <= m && Delivered(s, t, d, m, body)
    requires c < |s.channels| && Minded(s.channels[c], n)
    ensures |t.channels| == |s.channels| && Minded(t.channels[c], n)
  {
    var rec, starts := CallFor(s.channels[d], m), MayStart(s, s.serviceOf[d]);
    if body.Data? && body.attach && !rec.error && rec.phase == Precall && starts {
      assert n in s.channels[c].executed ==> n in t.channels[c].executed;
    } else {
      OnlyCallMinds(s, t, d, t.channels[d].call, m, t.incoming, c, n);
    }
  }

  lemma ArriveMinds(s: Server, d: nat, m: nat, body: Body, c: nat, n: nat)
    requires Inv(s) && d < |s.channels| && c < |s.channels| && Minded(s.channels[c], n)
    ensures |Receive(s, d, m, body).channels| == |s.channels| && Minded(Receive(s, d, m, body).channels[c], n)
  {
    ReceivedExactly(s, d, m, body);
    var t, ch := Receive(s, d, m, body), s.channels[d];
    if ch.callNumber <= m && !(IsActive(ch) && ch.callNumber < m) {
      DeliveredMinds(s, t, d, m, body, c, n);
    }
  }

  lemma AttachMinds(s: Server, d: nat, c: nat, n: nat)
    requires Inv(s) && HasCall(s, d) && c < |s.channels| && Minded(s.channels[c], n)
    ensures |Attach(s, d).channels| == |s.channels| && Minded(Attach(s, d).channels[c], n)
  {
  }

  lemma FinishMinds(s: Server, p: nat, c: nat, n: nat)
    requires Inv(s) && p < |s.procs| && s.procs[p].Running? && c < |s.channels| && Minded(s.channels[c], n)
    ensures |Finish(s, p).channels| == |s.channels| && Minded(Finish(s, p).channels[c], n)
  {
    var k := FinishedExactly(s, p);
  }

  lemma FailMinds(s: Server, d: nat, c: nat, n: nat)
    requires Inv(s) && HasCall(s, d) && c < |s.channels| && Minded(s.channels[c], n)
    ensures |CallError(s, d).channels| == |s.channels| && Minded(CallError(s, d).channels[c], n)
  {
    FailedExactly(s, d);
  }

  lemma StepMinds(s: Server, l: Label, c: nat, n: nat)
    requires Inv(s) && Enabled(s, l) && c < |s.channels| && Minded(s.channels[c], n) && !GivesUp(s, l, c, n)
    ensures |Step(s, l).channels| == |s.channels| && Minded(Step(s, l).channels[c], n)
  {
    match l
    case Arrive(d, m, body) => ArriveMinds(s, d, m, body, c, n);
    case Authenticated(d) => AttachMinds(s, d, c, n);
    case Resume(p) =>
    case End(p, failed) =>
      if failed {
        CallErrorInv(s, s.procs[p].chan);
        FailMinds(s, s.procs[p].chan, c, n);
        FinishMinds(CallError(s, s.procs[p].chan), p, c, n);
      } else {
        FinishMinds(s, p, c, n);
      }
    case Fail(d) => FailMinds(s, d, c, n);
    case Expire(d) => ExpiresExactly(s, d);
  }

  /** No step of the run frees the call before it was executed. */
  ghost predicate NeverGivesUp(s: Server, ls: seq<Label>, c: nat, n: nat)
    requires Inv(s)
    decreases |ls|
  {
    ls == [] || !Enabled(s, ls[0]) || c >= |s.channels| ||
    (!GivesUp(s, ls[0], c, n) && (StepInv(s, ls[0]); NeverGivesUp(Step(s, ls[0]), ls[1..], c, n)))
  }

  lemma {:induction false} RunMinds(s: Server, ls: seq<Label>, t: Server, c: nat, n: nat)
    requires Inv(s) && Run(s, ls, t) && c < |s.channels| && Minded(s.channels[c], n) && NeverGivesUp(s, ls, c, n)
    ensures c < |t.channels| && Minded(t.channels[c], n)
    decreases |ls|
  {
    if ls != [] {
      StepInv(s, ls[0]);
      StepMinds(s, ls[0], c, n);
      RunMinds(Step(s, ls[0]), ls[1..], t, c, n);
    }
  }

  /**
   * In every run, once the request of a call has come in while no other call was active on the channel
   * and until the call is freed, it has been executed, its number is passed, the call is in error, or
   * it stands in the queue, which no process leaves aside while it may start (WorkConservation).
   */
  lemma RequestNotForgotten(serviceOf: seq<nat>, services: seq<Service>, m: nat, before: seq<Label>, s: Server,
                            c: nat, n: nat, ls: seq<Label>, t: Server)
    requires Runs(serviceOf, services, m, before, s) && Inv(s)
    requires c < |s.channels| && 1 <= n && !(IsActive(s.channels[c]) && s.channels[c].callNumber < n)
    requires Inv(Step(s, Arrive(c, n, Data(true)))) && Run(Step(s, Arrive(c, n, Data(true))), ls, t)
    requires NeverGivesUp(Step(s, Arrive(c, n, Data(true))), ls, c, n)
    ensures c < |t.channels|
    ensures || n in t.channels[c].executed
            || n < t.channels[c].callNumber
            || (t.channels[c].callNumber == n && t.channels[c].call.Some? && (t.channels[c].call.value.error || c in t.incoming))
  {
    ArrivalMinded(s, c, n);
    var u := Step(s, Arrive(c, n, Data(true)));
    RunMinds(u, ls, t, c, n);
    RunInv(u, ls, t);
    QueueTells(t, c);
  }
}
