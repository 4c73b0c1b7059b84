/**
 * Waiting over runs of the scheduler: a process that has called LWP_MwaitProcess sleeps until the
 * signals of the run cover m of its entries, one that has called LWP_QWait until its LWP_QSignal,
 * and neither any longer.
 */
module LwpWaiting {
  import opened RxBase
  import opened LwpScheduler

  /** A waiting process after one signal. */
  function Struck(pcb: Pcb, event: int): Pcb {
    var hit := Strike(pcb, 0, event);
    if hit.waitcnt == 0 then hit.(status := Ready) else hit
  }

  lemma {:induction false} SignalAllSpares(s: State, todo: seq<nat>, event: int, p: nat)
    requires s.Shape() && p < |s.procs| && p !in todo && forall k :: 0 <= k < |todo| ==> todo[k] < |s.procs|
    ensures SignalAll(s, todo, event).procs[p] == s.procs[p]
    decreases |todo|
  {
    if todo != [] {
      SignalAllSpares(SignalOne(s, todo[0], event), todo[1..], event, p);
    }
  }

  /** A signal strikes each process that is blocked when it begins, once. */
  lemma {:induction false} SignalAllStrikes(s: State, todo: seq<nat>, event: int, p: nat)
    requires s.Shape() && p in todo && Distinct(todo) && forall k :: 0 <= k < |todo| ==> todo[k] < |s.procs|
    ensures SignalAll(s, todo, event).procs[p] == Struck(s.procs[p], event)
    decreases |todo|
  {
    var t := SignalOne(s, todo[0], event);
    if todo[0] == p {
      SignalAllSpares(t, todo[1..], event, p);
    } else {
      SignalAllStrikes(t, todo[1..], event, p);
    }
  }

  lemma IsBlocked(s: State, p: nat)
    requires Inv(s) && p < |s.procs| && s.procs[p].status == Waiting
    ensures p in s.blocked
  {
    assert Count(s.blocked, p) == 1;
    assert p in multiset(s.blocked);
  }

  /** Only a signal changes what a waiting process waits for. */
  lemma StepStrikes(s: State, l: Label, p: nat)
    requires Inv(s) && Blocked(s) && Enabled(s, l) && Step(s, l).Some?
    requires p < |s.procs| && s.procs[p].status == Waiting
    ensures var t := Step(s, l).value;
            && p < |t.procs|
            && t.procs[p] == if l.DoSignal? && l.event != 0 then Struck(s.procs[p], l.event) else s.procs[p]
  {
    if l.DoSignal? && l.event != 0 {
      IsBlocked(s, p);
      BlockedDistinct(s.blocked, s.procs);
      SignalAllStrikes(s, s.blocked, l.event, p);
    }
  }

  /** The events signalled in a run. */
  function Signals(ls: seq<Label>): (es: seq<int>)
    ensures 0 !in es
    decreases |ls|
  {
    if ls == [] then []
    else (if ls[0].DoSignal? && ls[0].event != 0 then [ls[0].event] else []) + Signals(ls[1..])
  }

  /** The process is waiting in every state of the run. */
  predicate SleepsThrough(s: State, ls: seq<Label>, p: nat)
    decreases |ls|
  {
    && p < |s.procs| && s.procs[p].status == Waiting
    && (ls != [] ==>
          && s.Shape() && Blocked(s) && Enabled(s, ls[0]) && Step(s, ls[0]).Some?
          && SleepsThrough(Step(s, ls[0]).value, ls[1..], p))
  }

  lemma {:induction false} SleepsExactly(s: State, ls: seq<Label>, t: State, p: nat)
    requires Inv(s) && Blocked(s) && Run(s, ls, t) && p < |s.procs| && s.procs[p].status == Waiting
    ensures SleepsThrough(s, ls, p) <==> Signalled(s.procs[p], Signals(ls)).waitcnt != 0
    decreases |ls|
  {
    if ls != [] {
      var u := Step(s, ls[0]).value;
      StepInv(s, ls[0]);
      StepStrikes(s, ls[0], p);
      if u.procs[p].status == Waiting {
        SleepsExactly(u, ls[1..], t, p);
      }
      if ls[0].DoSignal? && ls[0].event != 0 {
        var es := Signals(ls);
        assert es[0] == ls[0].event && es[1..] == Signals(ls[1..]);
      } else {
        assert Signals(ls) == Signals(ls[1..]);
      }
    }
  }

  /**
   * In every run after a wait for m of its events the process sleeps all along if and only if
   * the signals since then cover fewer than m of them.
   */
  lemma WokenExactly(priority: nat, s: State, m: nat, evs: seq<int>, ls: seq<Label>, t: State)
    requires Reachable(priority, s) && s.Shape() && Blocked(s) && Enabled(s, DoWait(m, evs)) && m <= |evs|
    requires Step(s, DoWait(m, evs)).Some? && Run(Step(s, DoWait(m, evs)).value, ls, t)
    ensures SleepsThrough(Step(s, DoWait(m, evs)).value, ls, s.cur) <==> Covered(evs, Signals(ls)) < m
  {
    ReachableInv(priority, s);
    StepInv(s, DoWait(m, evs));
    var u := Step(s, DoWait(m, evs)).value;
    SleepsExactly(u, ls, t, s.cur);
    WaitExact(u.procs[s.cur], Signals(ls));
  }

  lemma {:induction false} SleepsSnoc(s: State, ls: seq<Label>, t: State, l: Label, p: nat)
    requires Run(s, ls, t) && SleepsThrough(s, ls, p)
    requires t.Shape() && Blocked(t) && Enabled(t, l) && Step(t, l).Some?
    ensures Run(s, ls + [l], Step(t, l).value)
    ensures p < |t.procs| && t.procs[p].status == Waiting
    ensures var u := Step(t, l).value;
            SleepsThrough(s, ls + [l], p) <==> p < |u.procs| && u.procs[p].status == Waiting
    decreases |ls|
  {
    var all := ls + [l];
    if ls == [] {
      assert all[1..] == [] && all[0] == l;
      assert Run(Step(t, l).value, [], Step(t, l).value);
    } else {
      SleepsSnoc(Step(s, ls[0]).value, ls[1..], t, l, p);
      assert all[1..] == ls[1..] + [l] && all[0] == ls[0];
    }
  }

  /** The step that makes a sleeper ready is the signal with which m of its events are covered. */
  lemma WakesAtOnce(priority: nat, s: State, m: nat, evs: seq<int>, ls: seq<Label>, t: State, l: Label)
    requires Reachable(priority, s) && s.Shape() && Blocked(s) && Enabled(s, DoWait(m, evs)) && m <= |evs|
    requires Step(s, DoWait(m, evs)).Some? && Run(Step(s, DoWait(m, evs)).value, ls, t)
    requires Covered(evs, Signals(ls)) < m && t.Shape() && Blocked(t) && Enabled(t, l)
    ensures Step(t, l).Some? && s.cur < |Step(t, l).value.procs|
    ensures Step(t, l).value.procs[s.cur].status == Ready <==> m <= Covered(evs, Signals(ls + [l]))
  {
    WokenExactly(priority, s, m, evs, ls, t);
    ReachableInv(priority, s);
    StepInv(s, DoWait(m, evs));
    var u := Step(s, DoWait(m, evs)).value;
    RunInv(u, ls, t);
    StepInv(t, l);
    SleepsSnoc(u, ls, t, l, s.cur);
    StepStrikes(t, l, s.cur);
    WokenExactly(priority, s, m, evs, ls + [l], Step(t, l).value);
  }

  lemma {:induction false} StrikeNames(pcb: Pcb, i: nat, event: int)
    requires pcb.waitcnt != 0 && Strike(pcb, i, event).waitcnt == 0
    ensures var k := Strike(pcb, i, event).wakevent; i < k <= |pcb.events| && pcb.events[k - 1] == event
    decreases |pcb.events| - i
  {
    if i < |pcb.events| {
      if pcb.events[i] != event {
        StrikeNames(pcb, i + 1, event);
      } else {
        var hit := pcb.(events := pcb.events[i := 0], waitcnt := pcb.waitcnt - 1);
        if hit.waitcnt != 0 {
          StrikeNames(hit, i + 1, event);
        }
      }
    }
  }

  /** The process that a step makes ready is told by which of its entries: one with the event signalled. */
  lemma ToldWhich(s: State, l: Label, p: nat)
    requires Inv(s) && Blocked(s) && Enabled(s, l) && Step(s, l).Some?
    requires p < |s.procs| && s.procs[p].status == Waiting && p < |Step(s, l).value.procs|
    requires Step(s, l).value.procs[p].status == Ready
    ensures l.DoSignal?
    ensures var k := Step(s, l).value.procs[p].wakevent; 0 < k <= |s.procs[p].events| && s.procs[p].events[k - 1] == l.event
  {
    StepStrikes(s, l, p);
    StrikeNames(s.procs[p], 0, l.event);
  }

  // ---------------------------------------------------------------- q-waits

  lemma NotBlocked(s: State, p: nat)
    requires Inv(s) && p < |s.procs| && s.procs[p].status != Waiting
    ensures p !in s.blocked
  {
    assert Count(s.blocked, p) == 0;
  }

  /** Only its own LWP_QSignal changes a q-waiting process. */
  lemma StepQSignals(s: State, l: Label, p: nat)
    requires Inv(s) && Blocked(s) && Enabled(s, l) && Step(s, l).Some?
    requires p < |s.procs| && s.procs[p].status == QWaiting
    ensures var t := Step(s, l).value;
            && p < |t.procs|
            && t.procs[p] == if l == DoQSignal(p) then s.procs[p].(status := Ready) else s.procs[p]
  {
    if l.DoSignal? && l.event != 0 {
      NotBlocked(s, p);
      SignalAllSpares(s, s.blocked, l.event, p);
    }
  }

  /** The process is q-waiting in every state of the run. */
  predicate QSleepsThrough(s: State, ls: seq<Label>, p: nat)
    decreases |ls|
  {
    && p < |s.procs| && s.procs[p].status == QWaiting
    && (ls != [] ==>
          && s.Shape() && Blocked(s) && Enabled(s, ls[0]) && Step(s, ls[0]).Some?
          && QSleepsThrough(Step(s, ls[0]).value, ls[1..], p))
  }

  lemma {:induction false} QSleepsExactly(s: State, ls: seq<Label>, t: State, p: nat)
    requires Inv(s) && Blocked(s) && Run(s, ls, t) && p < |s.procs| && s.procs[p].status == QWaiting
    ensures QSleepsThrough(s, ls, p) <==> DoQSignal(p) !in ls
    ensures DoQSignal(p) !in ls ==> p < |t.procs| && t.procs[p].status == QWaiting
    decreases |ls|
  {
    if ls != [] {
      StepInv(s, ls[0]);
      StepQSignals(s, ls[0], p);
      if ls[0] != DoQSignal(p) {
        QSleepsExactly(Step(s, ls[0]).value, ls[1..], t, p);
        assert DoQSignal(p) in ls <==> DoQSignal(p) in ls[1..];
      }
    }
  }

  /** In every run after its LWP_QWait a process is q-waiting all along if and only if no LWP_QSignal named it since. */
  lemma QWokenExactly(priority: nat, s: State, ls: seq<Label>, t: State)
    requires Reachable(priority, s) && s.Shape() && Blocked(s) && Enabled(s, DoQWait)
    requires Step(s, DoQWait).Some? && Run(Step(s, DoQWait).value, ls, t)
    ensures QSleepsThrough(Step(s, DoQWait).value, ls, s.cur) <==> DoQSignal(s.cur) !in ls
  {
    ReachableInv(priority, s);
    StepInv(s, DoQWait);
    QSleepsExactly(Step(s, DoQWait).value, ls, t, s.cur);
  }

  /** At that signal it is ready, and last in the run queue of its priority; nobody else is moved. */
  lemma QWakesAtOnce(priority: nat, s: State, ls: seq<Label>, t: State)
    requires Reachable(priority, s) && s.Shape() && Blocked(s) && Enabled(s, DoQWait)
    requires Step(s, DoQWait).Some? && Run(Step(s, DoQWait).value, ls, t) && DoQSignal(s.cur) !in ls
    ensures t.Shape() && Blocked(t) && s.cur < |t.procs|
    ensures var u, i := Step(t, DoQSignal(s.cur)), t.procs[s.cur].priority;
            && u.Some? && u.value.procs == t.procs[s.cur := t.procs[s.cur].(status := Ready)]
            && u.value.runnable == t.runnable[i := t.runnable[i] + [s.cur]]
            && u.value.cur == t.cur && u.value.blocked == t.blocked
  {
    ReachableInv(priority, s);
    StepInv(s, DoQWait);
    RunInv(Step(s, DoQWait).value, ls, t);
    QSleepsExactly(Step(s, DoQWait).value, ls, t, s.cur);
  }

  /** A signal for a process that is not q-waiting is not remembered. */
  lemma QSignalNotKept(priority: nat, s: State, p: nat)
    requires Reachable(priority, s) && s.Shape() && Blocked(s) && p < |s.procs| && s.procs[p].status != QWaiting
    ensures Step(s, DoQSignal(p)) == Some(s)
  {
    ReachableInv(priority, s);
  }
}
