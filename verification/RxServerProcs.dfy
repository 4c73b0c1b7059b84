/**
 * The server tables of rx/rx.c updated in place: the scan of the incoming queue in
 * rx_GetCall, the hand-over in rxi_AttachServerProc, the counters, and the handling of
 * call structures when packets arrive and timers run out; and the pool size computed by
 * rxi_StartServerProcs in rx/rx_user.c.  Each method is proved against RxServer.
 */
module RxServerProcs {
  import opened RxBase
  import opened RxServer

  /** rxi_StartServerProcs: how many processes to create beyond those that exist. */
  method StartServerProcs(services: seq<Service>, nExistingProcs: nat) returns (nProcs: int)
    ensures nProcs == PoolSize(services) - nExistingProcs
  {
    nProcs := 0;
    var maxdiff := 0;
    var i := 0;
    while i < |services|
      invariant 0 <= i <= |services|
      invariant nProcs == MinTotal(services[..i]) && maxdiff == MaxDiff(services[..i])
    {
      assert services[..i + 1][..i] == services[..i];
      nProcs := nProcs + services[i].minProcs;
      var diff: int := services[i].maxProcs - services[i].minProcs;
      if diff > maxdiff {
        maxdiff := diff;
      }
      i := i + 1;
    }
    assert services[..i] == services;
    nProcs := nProcs + maxdiff - nExistingProcs;
  }

  class Server {
    var channels: seq<Channel>
    var services: seq<Service>
    var procs: seq<Proc>
    var idle: seq<nat>
    var incoming: seq<nat>
    var availProcs: int
    var minDeficit: int
    var nWaiting: int
    const serviceOf: seq<nat>

    ghost function View(): RxServer.Server
      reads this
    {
      RxServer.Server(serviceOf, channels, services, procs, idle, incoming, availProcs, minDeficit, nWaiting)
    }

    constructor (serviceOf: seq<nat>, services: seq<Service>, n: nat, totalMin: nat)
      requires totalMin == Deficit(services)
      ensures View() == Init(serviceOf, services, n)
    {
      this.serviceOf, this.services := serviceOf, services;
      channels := seq(|serviceOf|, _ => Channel(0, None, []));
      procs := seq(n, _ => Idle);
      idle := seq(n, i => i);
      incoming, availProcs, minDeficit, nWaiting := [], n, totalMin, 0;
    }

    method QuotaAllows(svc: nat) returns (ok: bool)
      requires svc < |services|
      ensures ok == QuotaOK(View(), svc)
    {
      var v := services[svc];
      if v.running >= v.maxProcs {
        return false;
      }
      if v.running < v.minProcs {
        return true;
      }
      return availProcs > minDeficit;
    }

    /** Process p will execute the call on channel c. */
    method StartCall(c: nat, p: nat, proc: Proc)
      requires c < |channels| && p < |procs| && channels[c].call.Some? && c < |serviceOf| && serviceOf[c] < |services|
      modifies this`channels, this`services, this`procs, this`availProcs, this`minDeficit
      ensures View() == CountStart(Activate(old(View()), c, p, proc), serviceOf[c])
    {
      var ch := channels[c];
      channels := channels[c := ch.(call := Some(ch.call.value.(phase := Active, waitProc := false)),
                                    executed := ch.executed + [ch.callNumber])];
      procs := procs[p := proc];
      var svc := serviceOf[c];
      services := services[svc := services[svc].(running := services[svc].running + 1)];
      if services[svc].running <= services[svc].minProcs {
        minDeficit := minDeficit - 1;
      }
      availProcs := availProcs - 1;
    }

    method AttachServerProc(c: nat)
      requires Typed(View()) && HasCall(View(), c)
      modifies this
      ensures View() == Attach(old(View()), c)
      ensures old(Inv(View()) && channels[c].call.value.phase != Dally) ==> Inv(View())
    {
      if Inv(View()) && channels[c].call.value.phase == Precall { AttachInv(View(), c); }
      var rec := channels[c].call.value;
      if rec.phase == Active {
        return;
      }
      var ok := QuotaAllows(serviceOf[c]);
      if !ok || idle == [] {
        if !rec.waitProc {
          channels := channels[c := channels[c].(call := Some(rec.(waitProc := true)))];
          nWaiting := nWaiting + 1;
          incoming := incoming + [c];
        }
      } else {
        var sq := idle[0];
        idle := idle[1..];
        if rec.waitProc {
          nWaiting := nWaiting - 1;
          incoming := Without(incoming, c);
        }
        StartCall(c, sq, Handed(c));
      }
    }

    /** rx_GetCall by process p: the first eligible call of the queue, or the idle queue. */
    method GetCall(p: nat)
      requires Typed(View()) && p < |procs|
      modifies this
      ensures View() == RxServer.GetCall(old(View()), p)
    {
      var i := 0;
      var ok := false;
      while i < |incoming| && !ok
        invariant 0 <= i <= |incoming| && (ok ==> i < |incoming|)
        invariant forall j :: 0 <= j < i ==> !QuotaOK(View(), serviceOf[incoming[j]])
        invariant ok ==> QuotaOK(View(), serviceOf[incoming[i]])
        modifies {}
        decreases |incoming| - i, !ok
      {
        ok := QuotaAllows(serviceOf[incoming[i]]);
        if !ok {
          i := i + 1;
        }
      }
      FirstEligibleUnique(View(), i);
      if ok {
        var c := incoming[i];
        incoming := Without(incoming, c);
        nWaiting := nWaiting - 1;
        StartCall(c, p, Running(c));
      } else {
        procs := procs[p := Idle];
        idle := idle + [p];
      }
    }

    /** The part of rx_EndCall that ends a server's call. */
    method EndCall(p: nat)
      requires Typed(View()) && p < |procs| && procs[p].Running?
      requires var c := procs[p].chan; channels[c].call.Some? && 0 < services[serviceOf[c]].running
      modifies this`channels, this`services, this`availProcs, this`minDeficit
      ensures View() == RxServer.EndCall(old(View()), p)
    {
      var c := procs[p].chan;
      var svc := serviceOf[c];
      services := services[svc := services[svc].(running := services[svc].running - 1)];
      if services[svc].running < services[svc].minProcs {
        minDeficit := minDeficit + 1;
      }
      availProcs := availProcs + 1;
      channels := channels[c := channels[c].(call := Some(channels[c].call.value.(phase := Dally)))];
    }

    /** rx_EndCall by process p and its next rx_GetCall, between which no other process runs. */
    method Finish(p: nat)
      requires Inv(View()) && p < |procs| && procs[p].Running?
      modifies this
      ensures View() == RxServer.Finish(old(View()), p) && Inv(View())
    {
      FinishInv(View(), p);
      EndedBetween(View(), p);
      EndCall(p);
      procs := procs[p := Idle];
      GetCall(p);
    }

    method ResetCall(c: nat)
      requires HasCall(View(), c)
      modifies this`channels, this`incoming, this`nWaiting
      ensures View() == Reset(old(View()), c)
      ensures old(Inv(View())) ==> Inv(View())
    {
      if Inv(View()) { ResetInv(View(), c); }
      var rec := channels[c].call.value;
      channels := channels[c := channels[c].(call := Some(rec.(waitProc := false, error := false)))];
      if rec.waitProc {
        incoming := Without(incoming, c);
        nWaiting := nWaiting - 1;
      }
    }

    method CallError(c: nat)
      requires HasCall(View(), c)
      modifies this`channels, this`incoming, this`nWaiting
      ensures View() == RxServer.CallError(old(View()), c)
      ensures old(Inv(View())) ==> Inv(View())
    {
      if Inv(View()) { CallErrorInv(View(), c); }
      ResetCall(c);
      channels := channels[c := channels[c].(call := Some(channels[c].call.value.(error := true)))];
    }

    method FreeCall(c: nat)
      requires HasCall(View(), c)
      modifies this`channels, this`incoming, this`nWaiting
      ensures View() == RxServer.FreeCall(old(View()), c)
      ensures old(Inv(View()) && channels[c].call.value.phase != Active) ==> Inv(View())
    {
      if Inv(View()) && channels[c].call.value.phase != Active { FreeCallInv(View(), c); }
      if channels[c].call.value.phase == Dally {
        channels := channels[c := channels[c].(callNumber := channels[c].callNumber + 1)];
      }
      ResetCall(c);
      channels := channels[c := channels[c].(call := None)];
    }

    /** The server's branch of rxi_ReceivePacket and what the packet's type then does. */
    method ReceivePacket(c: nat, n: nat, body: Body)
      requires Typed(View()) && c < |channels|
      modifies this
      ensures View() == Receive(old(View()), c, n, body)
      ensures old(Inv(View())) ==> Inv(View())
    {
      if Inv(View()) { ReceiveInv(View(), c, n, body); }
      var ch := channels[c];
      if n < ch.callNumber {
        return;
      }
      if ch.call.None? || (n != ch.callNumber && ch.call.value.phase != Active) {
        RenewTyped(View(), c, n);
        if ch.call.Some? {
          ResetCall(c);
        }
        channels := channels[c := channels[c].(callNumber := n, call := Some(CallRec(Precall, false, false)))];
      } else if n != ch.callNumber {
        CallError(c);
        return;
      }
      DispatchPacket(c, body);
    }

    method DispatchPacket(c: nat, body: Body)
      requires Typed(View()) && HasCall(View(), c)
      modifies this
      ensures View() == Dispatch(old(View()), c, body)
    {
      match body
      case Data(attach) =>
        var rec := channels[c].call.value;
        if attach && !rec.error && rec.phase == Precall {
          AttachServerProc(c);
        }
      case Abort => CallError(c);
      case Other =>
    }
  }

  lemma FirstEligibleUnique(s: RxServer.Server, i: nat)
    requires Typed(s) && i <= |s.incoming|
    requires forall j :: 0 <= j < i ==> !QuotaOK(s, s.serviceOf[s.incoming[j]])
    requires i < |s.incoming| ==> QuotaOK(s, s.serviceOf[s.incoming[i]])
    ensures FirstEligible(s, 0) == i
  {
  }
}
