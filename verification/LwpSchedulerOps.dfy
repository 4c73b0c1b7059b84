/**
 * The scheduler of lwp/plwp.c as its routines change the run queues, the blocked queue and
 * Highest_runnable_priority in place, each proved against the step it stands for.  The
 * queues are sequences here; LwpQueue shows how the circular lists represent them.
 */
module LwpSchedulerOps {
  import opened RxBase
  import opened LwpScheduler

  /** The processes the walk has still to look at are blocked, and each comes once. */
  ghost predicate Todo(s: State, todo: seq<nat>) {
    && Inv(s) && Distinct(todo)
    && forall k :: 0 <= k < |todo| ==> todo[k] < |s.procs| && s.procs[todo[k]].status == Waiting
  }

  lemma TodoStep(s: State, todo: seq<nat>, event: int)
    requires Todo(s, todo) && todo != [] && event != 0
    ensures Todo(SignalOne(s, todo[0], event), todo[1..])
    ensures s.procs[todo[0]].waitcnt != 0
  {
    SignalOneInv(s, todo[0], event);
  }

  class Scheduler {
    var procs: seq<Pcb>
    var runnable: seq<seq<nat>>
    var blocked: seq<nat>
    var cur: nat
    var hrp: nat

    ghost function View(): State
      reads this
    {
      State(procs, runnable, blocked, cur, hrp)
    }

    /** Cal_Highest_runnable_priority: from the top down to a queue that is not empty. */
    method CalHighest()
      modifies `hrp
      ensures hrp == Cal(runnable, old(hrp))
    {
      var i := |runnable| - 1;
      while 0 <= i && runnable[i] == []
        invariant -1 <= i < |runnable|
        invariant forall j :: i < j < |runnable| ==> runnable[j] == []
      {
        i := i - 1;
      }
      if 0 <= i { hrp := i; }
    }

    method TakeHead()
      requires hrp < |runnable| && runnable[hrp] != []
      modifies `cur, `runnable
      ensures Some(View()) == Switch(old(View()))
    {
      cur := runnable[hrp][0];
      runnable := runnable[hrp := runnable[hrp][1..]];
    }

    method Dispatch()
      requires Inv(View())
      modifies `cur, `runnable, `hrp
      ensures Some(View()) == Dispatcher(old(View())) && Inv(View())
    {
      DispatcherInv(View());
      var my := procs[cur].priority;
      if my < hrp || runnable[my] != [] {
        runnable := Put(runnable, my, cur);
        TakeHead();
      } else {
        hrp := my;
      }
    }

    method MwaitProcess(wcount: int, evs: seq<int>)
      requires Inv(View()) && Enabled(View(), DoWait(wcount, evs))
      modifies this
      ensures Some(View()) == Mwait(old(View()), wcount, evs) && Inv(View())
    {
      MwaitInv(View(), wcount, evs);
      if evs == [] || wcount > |evs| || wcount < 0 {
        Dispatch();
      } else {
        procs := procs[cur := procs[cur].(events := evs, waitcnt := wcount, wakevent := 0, status := Waiting)];
        blocked := blocked + [cur];
        if runnable[procs[cur].priority] == [] {
          CalHighest();
        }
        TakeHead();
      }
    }

    method QWaitProcess()
      requires Inv(View()) && Enabled(View(), DoQWait)
      modifies this
      ensures Some(View()) == QWait(old(View())) && Inv(View())
    {
      QWaitInv(View());
      procs := procs[cur := procs[cur].(status := QWaiting)];
      if runnable[procs[cur].priority] == [] {
        CalHighest();
      }
      TakeHead();
    }

    /** The process joins its run queue, and Highest_runnable_priority follows. */
    method MakeReady(p: nat, pcb: Pcb)
      requires p < |procs| && pcb.priority < |runnable|
      modifies `procs, `runnable, `hrp
      ensures View() == Readied(old(View()), p, pcb)
    {
      procs := procs[p := pcb.(status := Ready)];
      runnable := Put(runnable, pcb.priority, p);
      if hrp < pcb.priority { hrp := pcb.priority; }
    }

    method QSignalProcess(p: nat)
      requires Inv(View()) && p < |procs|
      modifies this
      ensures View() == QSignal(old(View()), p) && Inv(View())
    {
      QSignalInv(View(), p);
      if procs[p].status == QWaiting {
        MakeReady(p, procs[p]);
      }
    }

    /** The inner loop of Internal_Signal over the event list of one process. */
    method StrikeEvents(pcb: Pcb, event: int) returns (r: Pcb)
      requires pcb.waitcnt != 0
      ensures r == Strike(pcb, 0, event)
    {
      r := pcb;
      var i := 0;
      while i < |r.events|
        invariant Strike(r, i, event) == Strike(pcb, 0, event)
        invariant i <= |r.events|
        decreases |r.events| - i
      {
        if r.events[i] == event {
          r := r.(events := r.events[i := 0], waitcnt := r.waitcnt - 1);
          if r.waitcnt == 0 {
            r := r.(wakevent := i + 1);
            return;
          }
        }
        i := i + 1;
      }
    }

    /** lwpremove from the blocked queue. */
    method Removed(q: seq<nat>, p: nat) returns (r: seq<nat>)
      ensures r == Without(q, p)
    {
      var k := 0;
      while k < |q| && q[k] != p
        invariant k <= |q| && forall j :: 0 <= j < k ==> q[j] != p
      {
        k := k + 1;
      }
      assert k == IndexOf(q, p);
      r := if k < |q| then q[..k] + q[k + 1..] else q;
    }

    method SignalBlocked(p: nat, event: int)
      requires View().Shape() && p < |procs| && procs[p].waitcnt != 0
      modifies this
      ensures View() == SignalOne(old(View()), p, event)
    {
      var hit := StrikeEvents(procs[p], event);
      if hit.waitcnt == 0 {
        blocked := Removed(blocked, p);
        MakeReady(p, hit);
      } else {
        procs := procs[p := hit];
      }
    }

    /** The outer loop of Internal_Signal over the processes blocked when it began. */
    method InternalSignal(event: int)
      requires Inv(View()) && Blocked(View())
      modifies this
      ensures View() == (if event == 0 then old(View()) else SignalAll(old(View()), old(blocked), event))
      ensures Inv(View())
    {
      if event == 0 { return; }
      ghost var s := View();
      BlockedDistinct(blocked, procs);
      SignalAllInv(s, blocked, event);
      var todo: seq<nat> := blocked;
      while todo != []
        invariant Todo(View(), todo) && SignalAll(View(), todo, event) == SignalAll(s, s.blocked, event)
        decreases |todo|
      {
        TodoStep(View(), todo, event);
        SignalBlocked(todo[0], event);
        todo := todo[1..];
      }
    }

    method SignalProcess(event: int, handOver: bool)
      requires Inv(View()) && Blocked(View())
      modifies this
      ensures Some(View()) == Signal(old(View()), event, handOver) && Inv(View())
    {
      SignalInv(View(), event, handOver);
      InternalSignal(event);
      if handOver {
        DispatcherInv(View().(hrp := Cal(runnable, hrp)));
        CalHighest();
        var my := procs[cur].priority;
        if my < hrp || runnable[my] != [] {
          runnable := Put(runnable, my, cur);
          TakeHead();
        } else {
          hrp := my;
        }
      }
    }

    method CreateProcess(priority: int)
      requires Inv(View())
      modifies this
      ensures Some(View()) == Create(old(View()), priority) && Inv(View())
    {
      CreateInv(View(), priority);
      if 0 <= priority < MAX_PRIORITIES {
        CreatedQueues(runnable, procs, cur, Pcb(priority, Ready, [], 0, 0));
        RaisedHighest(runnable, procs[cur].priority, hrp, priority, |procs|);
        runnable := Put(runnable, priority, |procs|);
        procs := procs + [Pcb(priority, Ready, [], 0, 0)];
        if hrp < priority { hrp := priority; }
      }
      Dispatch();
    }
  }
}
