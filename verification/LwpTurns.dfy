/**
 * Whose turn it is: a process that offers the processor gets behind all others of its priority, one
 * that waits leaves it to the first of the best, and a new process queues behind its equals.
 */
module LwpTurns {
  import opened RxBase
  import opened LwpScheduler

  /** There is a process queued at priority i or above. */
  predicate Queued(r: seq<seq<nat>>, i: int) {
    exists j :: 0 <= i <= j < |r| && r[j] != []
  }

  /** The first of the best queue. */
  predicate FirstOfBest(r: seq<seq<nat>>, p: nat) {
    exists j :: 0 <= j < |r| && r[j] != [] && r[j][0] == p && forall k :: j < k < |r| ==> r[k] == []
  }

  /** The running process has offered the processor. */
  predicate Turned(s: State, t: State)
    requires s.Shape()
  {
    var my := s.Priority();
    && t.procs == s.procs && t.blocked == s.blocked
    && if Queued(s.runnable, my)
       then && FirstOfBest(s.runnable, t.cur) && t.cur != s.cur
            && |t.runnable| == |s.runnable| && t.runnable[my] != [] && t.runnable[my][|t.runnable[my]| - 1] == s.cur
       else t.cur == s.cur && t.runnable == s.runnable
  }

  lemma DispatcherTurns(s: State)
    requires s.Shape() && s.procs[s.cur].status == Ready && Rest(s) && Queues(s.runnable, s.procs, s.cur)
    requires Above(s.runnable, s.hrp) && (s.hrp == s.Priority() || s.runnable[s.hrp] != [])
    ensures Dispatcher(s).Some?
    ensures Turned(s, Dispatcher(s).value)
  {
    DispatcherInv(s);
    var my := s.Priority();
    if my < s.hrp || s.runnable[my] != [] {
      var p := s.runnable[s.hrp][0];
      NotQueued(s);
    }
  }

  /** The running process is in no run queue. */
  lemma NotQueued(s: State)
    requires s.Shape() && Queues(s.runnable, s.procs, s.cur)
    ensures forall i :: 0 <= i < |s.runnable| ==> s.cur !in s.runnable[i]
  {
    forall i | 0 <= i < |s.runnable|
      ensures s.cur !in s.runnable[i]
    {
      assert Count(s.runnable[i], s.cur) == 0;
    }
  }

  /**
   * In every run LWP_DispatchProcess gives way exactly when another process of the caller's
   * priority or above is queued: the first of the best runs, and the caller is last among its equals.
   */
  lemma GivesTurn(priority: nat, s: State)
    requires Reachable(priority, s)
    ensures s.Shape() && Blocked(s) && Step(s, DoDispatch).Some?
    ensures Turned(s, Step(s, DoDispatch).value)
  {
    ReachableInv(priority, s);
    DispatcherTurns(s);
  }

  /** In every run LWP_QWait and a wait for events leave the processor to the first of the best. */
  lemma WaitingLeaves(priority: nat, s: State, l: Label)
    requires Reachable(priority, s) && s.Shape() && Blocked(s) && Enabled(s, l)
    requires l.DoQWait? || (l.DoWait? && l.evs != [] && 0 < l.wcount <= |l.evs|)
    ensures Step(s, l).Some? && FirstOfBest(s.runnable, Step(s, l).value.cur)
    ensures var t := Step(s, l).value;
            && t.procs == s.procs[s.cur := t.procs[s.cur]]
            && t.procs[s.cur].priority == s.procs[s.cur].priority
            && t.procs[s.cur].status == (if l.DoQWait? then QWaiting else Waiting)
            && (l.DoWait? ==>
                  t.procs[s.cur].events == l.evs && t.procs[s.cur].waitcnt == l.wcount && t.procs[s.cur].wakevent == 0)
            && t.blocked == s.blocked + if l.DoWait? then [s.cur] else []
  {
    ReachableInv(priority, s);
    StepInv(s, l);
  }

  /** A wait that is an error only offers the processor. */
  lemma BadWaitDispatches(priority: nat, s: State, wcount: int, evs: seq<int>)
    requires Reachable(priority, s) && s.Shape() && Blocked(s) && Enabled(s, DoWait(wcount, evs))
    requires evs == [] || wcount > |evs| || wcount < 0
    ensures Step(s, DoWait(wcount, evs)) == Step(s, DoDispatch)
  {
  }

  /** In every run a new process is ready at its priority, behind its equals, and the creator offers the processor. */
  lemma CreatedReady(priority: nat, s: State, i: int)
    requires Reachable(priority, s) && s.Shape() && Blocked(s)
    ensures Step(s, DoCreate(i)).Some?
    ensures !(0 <= i < MAX_PRIORITIES) ==> Step(s, DoCreate(i)) == Step(s, DoDispatch)
    ensures 0 <= i < MAX_PRIORITIES ==>
              var t, n := Step(s, DoCreate(i)).value, |s.procs|;
              && |t.procs| == n + 1 && t.procs[..n] == s.procs
              && t.procs[n].status == Ready && t.procs[n].priority == i
              && t.blocked == s.blocked
              && (t.cur == n <==> s.Priority() <= i && !Queued(s.runnable, i))
  {
    ReachableInv(priority, s);
    StepInv(s, DoCreate(i));
    if 0 <= i < MAX_PRIORITIES {
      var u := s.(procs := s.procs + [Pcb(i, Ready, [], 0, 0)], runnable := Put(s.runnable, i, |s.procs|), hrp := Max(s.hrp, i));
      CreatedTurns(s, i, u);
      NewFirst(s, i, u, Step(s, DoCreate(i)).value);
    }
  }

  lemma CreatedTurns(s: State, i: nat, u: State)
    requires Inv(s) && i < MAX_PRIORITIES
    requires u == s.(procs := s.procs + [Pcb(i, Ready, [], 0, 0)], runnable := Put(s.runnable, i, |s.procs|), hrp := Max(s.hrp, i))
    ensures u.Shape() && Dispatcher(u).Some? && Turned(u, Dispatcher(u).value)
  {
    CreatedQueues(s.runnable, s.procs, s.cur, Pcb(i, Ready, [], 0, 0));
    RaisedHighest(s.runnable, s.Priority(), s.hrp, i, |s.procs|);
    DispatcherTurns(u);
  }

  /** The new process runs if and only if it is the first of the best. */
  lemma NewFirst(s: State, i: nat, u: State, t: State)
    requires Inv(s) && i < MAX_PRIORITIES && u.Shape() && u.cur == s.cur && u.Priority() == s.Priority()
    requires u.runnable == Put(s.runnable, i, |s.procs|) && Turned(u, t)
    ensures t.cur == |s.procs| <==> s.Priority() <= i && !Queued(s.runnable, i)
  {
    NewIsNowhere(s);
    var n := |s.procs|;
    assert u.runnable[i] == s.runnable[i] + [n];
    if s.Priority() <= i {
      assert Queued(u.runnable, u.Priority());
      var j :| 0 <= j < |u.runnable| && u.runnable[j] != [] && u.runnable[j][0] == t.cur &&
               forall k :: j < k < |u.runnable| ==> u.runnable[k] == [];
      assert i <= j;
      if s.runnable[j] != [] {
        assert u.runnable[j][0] == s.runnable[j][0] && s.runnable[j][0] in s.runnable[j];
      } else {
        assert j == i && forall k :: i < k < |s.runnable| ==> s.runnable[k] == u.runnable[k];
      }
    } else if Queued(u.runnable, u.Priority()) {
      var j :| 0 <= j < |u.runnable| && u.runnable[j] != [] && u.runnable[j][0] == t.cur &&
               forall k :: j < k < |u.runnable| ==> u.runnable[k] == [];
      assert i < j && s.runnable[j][0] in s.runnable[j];
    }
  }

  lemma NewIsNowhere(s: State)
    requires Inv(s)
    ensures forall j :: 0 <= j < |s.runnable| ==> |s.procs| !in s.runnable[j]
  {
    forall j | 0 <= j < |s.runnable|
      ensures |s.procs| !in s.runnable[j]
    {
      assert Count(s.runnable[j], |s.procs|) == 0;
    }
  }

  /** In every run a signal that hands over is the signal without, and then the caller offers the processor. */
  lemma SignalTurns(priority: nat, s: State, event: int)
    requires Reachable(priority, s) && s.Shape() && Blocked(s)
    ensures Step(s, DoSignal(event, false)).Some? && Step(s, DoSignal(event, true)).Some?
    ensures var m := Step(s, DoSignal(event, false)).value;
            m.Shape() && m.cur == s.cur && Turned(m, Step(s, DoSignal(event, true)).value)
  {
    ReachableInv(priority, s);
    StepInv(s, DoSignal(event, false));
    var m := Step(s, DoSignal(event, false)).value;
    DispatcherTurns(m.(hrp := Cal(m.runnable, m.hrp)));
  }
}
