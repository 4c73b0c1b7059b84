/**
 * The LWP process scheduler of lwp/plwp.c: run queues by priority, the queue of blocked
 * processes, and the cached Highest_runnable_priority.  Processes are known by their index.
 * A step is the code one process executes until it gives the processor away; where a step
 * takes the head of an empty queue the outcome is None.
 */
module LwpScheduler {
  import opened RxBase

  const MAX_PRIORITIES := 5

  /** The process of lwp/iomgr.c, created second, which never waits. */
  const IO_MANAGER := 1

  datatype Status = Ready | Waiting | QWaiting

  /** A struck event is 0, the null pointer; other events are not 0. */
  datatype Pcb = Pcb(priority: nat, status: Status, events: seq<int>, waitcnt: int, wakevent: nat)

  datatype State = State(procs: seq<Pcb>, runnable: seq<seq<nat>>, blocked: seq<nat>, cur: nat, hrp: nat) {
    predicate Shape() {
      |runnable| == MAX_PRIORITIES && cur < |procs| && hrp < MAX_PRIORITIES && Priorities(procs)
    }

    function Priority(): nat
      requires cur < |procs|
    {
      procs[cur].priority
    }
  }

  predicate Priorities(procs: seq<Pcb>) {
    forall p :: 0 <= p < |procs| ==> procs[p].priority < MAX_PRIORITIES
  }

  // ------------------------------------------------------------- operations

  function Put(r: seq<seq<nat>>, i: nat, p: nat): (q: seq<seq<nat>>)
    requires i < |r|
    ensures |q| == |r|
  {
    r[i := r[i] + [p]]
  }

  /** The highest priority with a runnable process, or -1. */
  function Top(r: seq<seq<nat>>): (h: int)
    ensures -1 <= h < |r|
    ensures 0 <= h ==> r[h] != []
    ensures forall j :: h < j < |r| ==> r[j] == []
  {
    if r == [] then -1 else if r[|r| - 1] != [] then |r| - 1 else Top(r[..|r| - 1])
  }

  /** Cal_Highest_runnable_priority, which keeps the old value when nothing is runnable. */
  function Cal(r: seq<seq<nat>>, hrp: nat): nat {
    if 0 <= Top(r) then Top(r) else hrp
  }

  /** The processor goes to the head of the queue that Highest_runnable_priority names. */
  function Switch(s: State): Option<State>
    requires s.hrp < |s.runnable|
  {
    var q := s.runnable[s.hrp];
    if q == [] then None else Some(s.(cur := q[0], runnable := s.runnable[s.hrp := q[1..]]))
  }

  function Dispatcher(s: State): Option<State>
    requires s.Shape()
  {
    var my := s.Priority();
    if my < s.hrp || s.runnable[my] != [] then Switch(s.(runnable := Put(s.runnable, my, s.cur)))
    else Some(s.(hrp := my))
  }

  /** The end of LWP_MwaitProcess and LWP_QWait: the caller is out of the run queues. */
  function GiveUp(s: State): Option<State>
    requires s.Shape()
  {
    Switch(if s.runnable[s.Priority()] == [] then s.(hrp := Cal(s.runnable, s.hrp)) else s)
  }

  /** LWP_MwaitProcess; the list of events excludes the null that ends it. */
  function Mwait(s: State, wcount: int, evs: seq<int>): Option<State>
    requires s.Shape()
  {
    if evs == [] || wcount > |evs| || wcount < 0 then Dispatcher(s)
    else
      var p := s.procs[s.cur].(events := evs, waitcnt := wcount, wakevent := 0);
      GiveUp(if 0 < wcount
             then s.(procs := s.procs[s.cur := p.(status := Waiting)], blocked := s.blocked + [s.cur])
             else s.(procs := s.procs[s.cur := p]))
  }

  function QWait(s: State): Option<State>
    requires s.Shape()
  {
    GiveUp(s.(procs := s.procs[s.cur := s.procs[s.cur].(status := QWaiting)]))
  }

  /** A process becomes runnable. */
  function Readied(s: State, p: nat, pcb: Pcb): State
    requires p < |s.procs| && pcb.priority < |s.runnable|
  {
    s.(procs := s.procs[p := pcb.(status := Ready)], runnable := Put(s.runnable, pcb.priority, p),
       hrp := Max(s.hrp, pcb.priority))
  }

  function QSignal(s: State, p: nat): State
    requires s.Shape() && p < |s.procs|
  {
    if s.procs[p].status == QWaiting then Readied(s, p, s.procs[p]) else s
  }

  /** One signal against one event list, from entry i on; it stops when the count reaches 0. */
  function Strike(pcb: Pcb, i: nat, event: int): (r: Pcb)
    ensures r.priority == pcb.priority && r.status == pcb.status && |r.events| == |pcb.events|
    decreases |pcb.events| - i
  {
    if |pcb.events| <= i then pcb
    else if pcb.events[i] != event then Strike(pcb, i + 1, event)
    else
      var hit := pcb.(events := pcb.events[i := 0], waitcnt := pcb.waitcnt - 1);
      if hit.waitcnt == 0 then hit.(wakevent := i + 1) else Strike(hit, i + 1, event)
  }

  function SignalOne(s: State, p: nat, event: int): (t: State)
    requires s.Shape() && p < |s.procs|
    ensures t.Shape() && t.cur == s.cur && |t.procs| == |s.procs|
  {
    var hit := Strike(s.procs[p], 0, event);
    if hit.waitcnt == 0 then Readied(s.(blocked := Without(s.blocked, p)), p, hit)
    else s.(procs := s.procs[p := hit])
  }

  /** The walk over the blocked queue as it stood when the signal began. */
  function SignalAll(s: State, todo: seq<nat>, event: int): (t: State)
    requires s.Shape() && forall k :: 0 <= k < |todo| ==> todo[k] < |s.procs|
    ensures t.Shape() && t.cur == s.cur && |t.procs| == |s.procs|
    decreases |todo|
  {
    if todo == [] then s
    else SignalAll(SignalOne(s, todo[0], event), todo[1..], event)
  }

  predicate Blocked(s: State) {
    forall k :: 0 <= k < |s.blocked| ==> s.blocked[k] < |s.procs|
  }

  /** LWP_INTERNALSIGNAL: a null event wakes nobody. */
  function Signal(s: State, event: int, handOver: bool): Option<State>
    requires s.Shape() && Blocked(s)
  {
    var t := if event == 0 then s else SignalAll(s, s.blocked, event);
    if handOver then Dispatcher(t.(hrp := Cal(t.runnable, t.hrp))) else Some(t)
  }

  function Create(s: State, priority: int): Option<State>
    requires s.Shape()
  {
    if !(0 <= priority < MAX_PRIORITIES) then Dispatcher(s)
    else
      Dispatcher(s.(procs := s.procs + [Pcb(priority, Ready, [], 0, 0)],
                    runnable := Put(s.runnable, priority, |s.procs|), hrp := Max(s.hrp, priority)))
  }

  // -------------------------------------------------------------------- runs

  datatype Label =
    | DoDispatch
    | DoWait(wcount: int, evs: seq<int>)
    | DoQWait
    | DoQSignal(p: nat)
    | DoSignal(event: int, handOver: bool)
    | DoCreate(priority: int)

  /** Waits are for at least one event, and not by the IO manager or before it exists. */
  predicate Enabled(s: State, l: Label) {
    match l
    case DoWait(wcount, evs) => IO_MANAGER < |s.procs| && s.cur != IO_MANAGER && wcount != 0 && 0 !in evs
    case DoQWait => IO_MANAGER < |s.procs| && s.cur != IO_MANAGER
    case DoQSignal(p) => p < |s.procs|
    case _ => true
  }

  function Step(s: State, l: Label): Option<State>
    requires s.Shape() && Blocked(s) && Enabled(s, l)
  {
    match l
    case DoDispatch => Dispatcher(s)
    case DoWait(wcount, evs) => Mwait(s, wcount, evs)
    case DoQWait => QWait(s)
    case DoQSignal(p) => Some(QSignal(s, p))
    case DoSignal(event, handOver) => Signal(s, event, handOver)
    case DoCreate(priority) => Create(s, priority)
  }

  /** InitializeProcessSupport: Highest_runnable_priority starts as a zeroed global. */
  function Init(priority: nat): Option<State>
    requires priority < MAX_PRIORITIES
  {
    Dispatcher(State([Pcb(priority, Ready, [], 0, 0)], [[], [], [], [], []], [], 0, 0))
  }

  // -------------------------------------------------------------- invariant

  predicate Due(procs: seq<Pcb>, cur: int, i: int, p: nat) {
    p < |procs| && p != cur && procs[p].status == Ready && procs[p].priority == i
  }

  /** A run queue holds, once each, the ready processes of its priority except the running one. */
  ghost predicate Queues(runnable: seq<seq<nat>>, procs: seq<Pcb>, cur: int) {
    forall i, p: nat :: 0 <= i < |runnable| ==> Count(runnable[i], p) == One(Due(procs, cur, i, p))
  }

  ghost predicate Sleepers(blocked: seq<nat>, procs: seq<Pcb>) {
    forall p: nat :: Count(blocked, p) == One(p < |procs| && procs[p].status == Waiting)
  }

  /** Highest_runnable_priority is the greatest among the runnable and the running process. */
  predicate Highest(runnable: seq<seq<nat>>, mine: int, hrp: nat) {
    && hrp < |runnable|
    && mine <= hrp
    && (hrp == mine || runnable[hrp] != [])
    && forall j :: hrp < j < |runnable| ==> runnable[j] == []
  }

  function NonNull(evs: seq<int>): nat {
    if evs == [] then 0 else NonNull(evs[..|evs| - 1]) + One(evs[|evs| - 1] != 0)
  }

  /** Who waits still has as many unsignalled events as the signals it needs. */
  predicate Waits(procs: seq<Pcb>) {
    forall p :: 0 <= p < |procs| && procs[p].status == Waiting ==>
      0 < procs[p].waitcnt <= NonNull(procs[p].events)
  }

  predicate IoReady(procs: seq<Pcb>) {
    IO_MANAGER < |procs| ==> procs[IO_MANAGER].status == Ready
  }

  ghost predicate Inv(s: State) {
    && s.Shape() && s.procs[s.cur].status == Ready
    && Queues(s.runnable, s.procs, s.cur) && Sleepers(s.blocked, s.procs)
    && Highest(s.runnable, s.Priority(), s.hrp)
    && Waits(s.procs) && IoReady(s.procs)
  }

  // ------------------------------------------------------------- the queues

  lemma PutCount(r: seq<seq<nat>>, i: nat, p: nat)
    requires i < |r|
    ensures forall j, x: nat :: 0 <= j < |r| ==>
              Count(Put(r, i, p)[j], x) == Count(r[j], x) + One(j == i && x == p)
  {
    assert multiset(r[i] + [p]) == multiset(r[i]) + multiset{p};
  }

  /** The running process goes back to its own queue. */
  lemma Requeued(r: seq<seq<nat>>, procs: seq<Pcb>, cur: nat)
    requires Queues(r, procs, cur) && cur < |procs| && procs[cur].status == Ready && procs[cur].priority < |r|
    ensures Queues(Put(r, procs[cur].priority, cur), procs, -1)
  {
    PutCount(r, procs[cur].priority, cur);
  }

  /** A waiting process goes to the queue of its priority. */
  lemma ReadiedQueues(r: seq<seq<nat>>, procs: seq<Pcb>, cur: int, p: nat, pcb: Pcb)
    requires Queues(r, procs, cur) && p < |procs| && p != cur && procs[p].status != Ready
    requires pcb.status == Ready && pcb.priority == procs[p].priority < |r|
    ensures Queues(Put(r, pcb.priority, p), procs[p := pcb], cur)
  {
    PutCount(r, pcb.priority, p);
  }

  lemma CreatedQueues(r: seq<seq<nat>>, procs: seq<Pcb>, cur: int, pcb: Pcb)
    requires Queues(r, procs, cur) && cur < |procs| && pcb.status == Ready && pcb.priority < |r|
    ensures Queues(Put(r, pcb.priority, |procs|), procs + [pcb], cur)
  {
    PutCount(r, pcb.priority, |procs|);
  }

  /** The running process stops being ready. */
  lemma SleptQueues(r: seq<seq<nat>>, procs: seq<Pcb>, cur: nat, pcb: Pcb)
    requires Queues(r, procs, cur) && cur < |procs| && pcb.status != Ready
    ensures Queues(r, procs[cur := pcb], -1)
  {
  }

  /** The head of the highest queue starts running. */
  lemma SwitchQueues(s: State)
    requires s.hrp < |s.runnable| && s.runnable[s.hrp] != [] && Queues(s.runnable, s.procs, -1)
    ensures var t := Switch(s).value;
            && t.cur < |t.procs| && t.procs[t.cur].status == Ready && t.procs[t.cur].priority == s.hrp
            && Queues(t.runnable, t.procs, t.cur)
  {
    var q := s.runnable[s.hrp];
    assert q == [q[0]] + q[1..];
    assert multiset(q) == multiset{q[0]} + multiset(q[1..]);
    assert forall p: nat :: Count(q[1..], p) == Count(q, p) - One(p == q[0]);
    assert Count(q, q[0]) == One(Due(s.procs, -1, s.hrp, q[0]));
  }

  lemma SomeoneRunnable(r: seq<seq<nat>>, procs: seq<Pcb>, cur: int, p: nat)
    requires Queues(r, procs, cur) && p < |procs| && p != cur && procs[p].status == Ready && procs[p].priority < |r|
    ensures r[procs[p].priority] != []
  {
    assert Count(r[procs[p].priority], p) == 1;
  }

  // ----------------------------------------------------------- preservation

  ghost predicate Rest(s: State) {
    Sleepers(s.blocked, s.procs) && Waits(s.procs) && IoReady(s.procs)
  }

  /** Nothing is runnable above hrp. */
  predicate Above(runnable: seq<seq<nat>>, hrp: nat) {
    forall j :: hrp < j < |runnable| ==> runnable[j] == []
  }

  /** A switch picks a process of the highest priority and leaves hrp exact. */
  lemma SwitchInv(s: State)
    requires s.Shape() && Rest(s) && Queues(s.runnable, s.procs, -1)
    requires s.runnable[s.hrp] != [] && Above(s.runnable, s.hrp)
    ensures Switch(s).Some? && Inv(Switch(s).value)
    ensures Switch(s).value.hrp == Switch(s).value.Priority() == s.hrp
  {
    SwitchQueues(s);
  }

  lemma DispatcherInv(s: State)
    requires s.Shape() && s.procs[s.cur].status == Ready && Rest(s) && Queues(s.runnable, s.procs, s.cur)
    requires Above(s.runnable, s.hrp) && (s.hrp == s.Priority() || s.runnable[s.hrp] != [])
    ensures Dispatcher(s).Some? && Inv(Dispatcher(s).value)
    ensures Dispatcher(s).value.hrp == Dispatcher(s).value.Priority()
  {
    var my := s.Priority();
    if my < s.hrp || s.runnable[my] != [] {
      Requeued(s.runnable, s.procs, s.cur);
      SwitchInv(s.(runnable := Put(s.runnable, my, s.cur)));
    }
  }

  lemma GiveUpInv(s: State, other: nat)
    requires s.Shape() && Rest(s) && Queues(s.runnable, s.procs, -1)
    requires Highest(s.runnable, s.Priority(), s.hrp)
    requires other < |s.procs| && s.procs[other].status == Ready
    ensures GiveUp(s).Some? && Inv(GiveUp(s).value)
    ensures GiveUp(s).value.hrp == GiveUp(s).value.Priority()
  {
    SomeoneRunnable(s.runnable, s.procs, -1, other);
    SwitchInv(if s.runnable[s.Priority()] == [] then s.(hrp := Cal(s.runnable, s.hrp)) else s);
  }

  lemma QWaitInv(s: State)
    requires Inv(s) && Enabled(s, DoQWait)
    ensures QWait(s).Some? && Inv(QWait(s).value) && QWait(s).value.hrp == QWait(s).value.Priority()
  {
    var pcb := s.procs[s.cur].(status := QWaiting);
    SleptQueues(s.runnable, s.procs, s.cur, pcb);
    GiveUpInv(s.(procs := s.procs[s.cur := pcb]), IO_MANAGER);
  }

  lemma {:induction false} AllNonNull(evs: seq<int>)
    requires 0 !in evs
    ensures NonNull(evs) == |evs|
    decreases |evs|
  {
    if evs != [] {
      AllNonNull(evs[..|evs| - 1]);
    }
  }

  lemma SleptSleepers(blocked: seq<nat>, procs: seq<Pcb>, cur: nat, pcb: Pcb)
    requires Sleepers(blocked, procs) && cur < |procs| && procs[cur].status == Ready && pcb.status == Waiting
    ensures Sleepers(blocked + [cur], procs[cur := pcb])
  {
    assert multiset(blocked + [cur]) == multiset(blocked) + multiset{cur};
    assert forall p: nat :: Count(blocked + [cur], p) == Count(blocked, p) + One(p == cur);
  }

  lemma MwaitInv(s: State, wcount: int, evs: seq<int>)
    requires Inv(s) && Enabled(s, DoWait(wcount, evs))
    ensures Mwait(s, wcount, evs).Some? && Inv(Mwait(s, wcount, evs).value)
    ensures Mwait(s, wcount, evs).value.hrp == Mwait(s, wcount, evs).value.Priority()
  {
    if evs == [] || wcount > |evs| || wcount < 0 {
      DispatcherInv(s);
    } else {
      var pcb := s.procs[s.cur].(events := evs, waitcnt := wcount, wakevent := 0, status := Waiting);
      SleptQueues(s.runnable, s.procs, s.cur, pcb);
      SleptSleepers(s.blocked, s.procs, s.cur, pcb);
      AllNonNull(evs);
      GiveUpInv(s.(procs := s.procs[s.cur := pcb], blocked := s.blocked + [s.cur]), IO_MANAGER);
    }
  }

  // --------------------------------------------------------------- signals

  lemma {:induction false} Nulled(evs: seq<int>, i: nat)
    requires i < |evs|
    ensures NonNull(evs[i := 0]) == NonNull(evs) - One(evs[i] != 0)
    decreases |evs|
  {
    var n := |evs| - 1;
    if i == n {
      assert evs[i := 0][..n] == evs[..n];
    } else {
      Nulled(evs[..n], i);
      assert evs[i := 0][..n] == evs[..n][i := 0];
    }
  }

  lemma {:induction false} StrikeKeeps(pcb: Pcb, i: nat, event: int)
    requires 0 < pcb.waitcnt <= NonNull(pcb.events) && event != 0
    ensures var r := Strike(pcb, i, event); 0 <= r.waitcnt <= NonNull(r.events)
    decreases |pcb.events| - i
  {
    if i < |pcb.events| {
      if pcb.events[i] == event {
        Nulled(pcb.events, i);
        var hit := pcb.(events := pcb.events[i := 0], waitcnt := pcb.waitcnt - 1);
        if hit.waitcnt != 0 {
          StrikeKeeps(hit, i + 1, event);
        }
      } else {
        StrikeKeeps(pcb, i + 1, event);
      }
    }
  }

  lemma WokenSleepers(blocked: seq<nat>, procs: seq<Pcb>, p: nat, pcb: Pcb)
    requires Sleepers(blocked, procs) && p < |procs| && procs[p].status == Waiting && pcb.status == Ready
    ensures Sleepers(Without(blocked, p), procs[p := pcb])
  {
    WithoutCounts(blocked, p);
    assert forall x: nat :: Count(Without(blocked, p), x) == if x == p then Count(blocked, x) - 1 else Count(blocked, x) by {
      assert Count(blocked, p) == 1;
    }
  }

  lemma RaisedHighest(r: seq<seq<nat>>, mine: nat, hrp: nat, i: nat, p: nat)
    requires Highest(r, mine, hrp) && i < |r|
    ensures Highest(Put(r, i, p), mine, Max(hrp, i))
  {
  }

  lemma QSignalInv(s: State, p: nat)
    requires Inv(s) && p < |s.procs|
    ensures Inv(QSignal(s, p))
  {
    if s.procs[p].status == QWaiting {
      var pcb := s.procs[p].(status := Ready);
      ReadiedQueues(s.runnable, s.procs, s.cur, p, pcb);
      RaisedHighest(s.runnable, s.Priority(), s.hrp, pcb.priority, p);
    }
  }

  lemma StruckQueues(r: seq<seq<nat>>, procs: seq<Pcb>, cur: int, p: nat, pcb: Pcb)
    requires Queues(r, procs, cur) && p < |procs| && pcb.priority == procs[p].priority && pcb.status == procs[p].status
    ensures Queues(r, procs[p := pcb], cur)
  {
  }

  lemma WokenInv(s: State, p: nat, pcb: Pcb)
    requires Inv(s) && p < |s.procs| && s.procs[p].status == Waiting && pcb.priority == s.procs[p].priority
    ensures Inv(Readied(s.(blocked := Without(s.blocked, p)), p, pcb))
  {
    var ready := pcb.(status := Ready);
    ReadiedQueues(s.runnable, s.procs, s.cur, p, ready);
    WokenSleepers(s.blocked, s.procs, p, ready);
    RaisedHighest(s.runnable, s.Priority(), s.hrp, ready.priority, p);
  }

  lemma StruckInv(s: State, p: nat, hit: Pcb)
    requires Inv(s) && p < |s.procs| && s.procs[p].status == Waiting == hit.status && hit.priority == s.procs[p].priority
    requires 0 < hit.waitcnt <= NonNull(hit.events)
    ensures Inv(s.(procs := s.procs[p := hit]))
  {
    StruckQueues(s.runnable, s.procs, s.cur, p, hit);
  }

  lemma SignalOneInv(s: State, p: nat, event: int)
    requires Inv(s) && p < |s.procs| && s.procs[p].status == Waiting && event != 0
    ensures Inv(SignalOne(s, p, event))
  {
    var hit := Strike(s.procs[p], 0, event);
    StrikeKeeps(s.procs[p], 0, event);
    if hit.waitcnt == 0 {
      WokenInv(s, p, hit);
    } else {
      StruckInv(s, p, hit);
    }
  }

  predicate Distinct(q: seq<nat>) {
    forall i, j :: 0 <= i < j < |q| ==> q[i] != q[j]
  }

  lemma {:induction false} SignalAllInv(s: State, todo: seq<nat>, event: int)
    requires Inv(s) && event != 0 && Distinct(todo)
    requires forall k :: 0 <= k < |todo| ==> todo[k] < |s.procs| && s.procs[todo[k]].status == Waiting
    ensures Inv(SignalAll(s, todo, event))
    decreases |todo|
  {
    if todo != [] {
      SignalOneInv(s, todo[0], event);
      SignalAllInv(SignalOne(s, todo[0], event), todo[1..], event);
    }
  }

  lemma BlockedDistinct(blocked: seq<nat>, procs: seq<Pcb>)
    requires Sleepers(blocked, procs)
    ensures Distinct(blocked)
    ensures forall k :: 0 <= k < |blocked| ==> blocked[k] < |procs| && procs[blocked[k]].status == Waiting
  {
    forall k | 0 <= k < |blocked| ensures blocked[k] < |procs| && procs[blocked[k]].status == Waiting {
      assert blocked[k] in multiset(blocked);
      assert 0 < Count(blocked, blocked[k]);
    }
    forall i, j | 0 <= i < j < |blocked| ensures blocked[i] != blocked[j] {
      assert blocked == blocked[..j] + blocked[j..];
      assert blocked[i] == blocked[..j][i] && blocked[j] == blocked[j..][0];
      assert blocked[i] in multiset(blocked[..j]) && blocked[j] in multiset(blocked[j..]);
      assert multiset(blocked) == multiset(blocked[..j]) + multiset(blocked[j..]);
      assert Count(blocked, blocked[i]) <= 1;
    }
  }

  lemma SignalInv(s: State, event: int, handOver: bool)
    requires Inv(s) && Blocked(s)
    ensures Signal(s, event, handOver).Some? && Inv(Signal(s, event, handOver).value)
    ensures handOver ==> Signal(s, event, handOver).value.hrp == Signal(s, event, handOver).value.Priority()
  {
    BlockedDistinct(s.blocked, s.procs);
    var t := if event == 0 then s else SignalAll(s, s.blocked, event);
    if event != 0 {
      SignalAllInv(s, s.blocked, event);
    }
    if handOver {
      DispatcherInv(t.(hrp := Cal(t.runnable, t.hrp)));
    }
  }

  lemma CreateInv(s: State, priority: int)
    requires Inv(s)
    ensures Create(s, priority).Some? && Inv(Create(s, priority).value)
    ensures Create(s, priority).value.hrp == Create(s, priority).value.Priority()
  {
    if 0 <= priority < MAX_PRIORITIES {
      var pcb := Pcb(priority, Ready, [], 0, 0);
      CreatedQueues(s.runnable, s.procs, s.cur, pcb);
      RaisedHighest(s.runnable, s.Priority(), s.hrp, priority, |s.procs|);
      DispatcherInv(s.(procs := s.procs + [pcb], runnable := Put(s.runnable, priority, |s.procs|),
                       hrp := Max(s.hrp, priority)));
    } else {
      DispatcherInv(s);
    }
  }

  /** Every step finds its head and keeps the invariant; one that switches leaves the best process running. */
  lemma StepInv(s: State, l: Label)
    requires Inv(s) && Blocked(s) && Enabled(s, l)
    ensures Step(s, l).Some? && Inv(Step(s, l).value) && Blocked(Step(s, l).value)
    ensures !l.DoQSignal? && (l.DoSignal? ==> l.handOver) ==> Step(s, l).value.hrp == Step(s, l).value.Priority()
  {
    match l {
      case DoDispatch => DispatcherInv(s);
      case DoWait(wcount, evs) => MwaitInv(s, wcount, evs);
      case DoQWait => QWaitInv(s);
      case DoQSignal(p) => QSignalInv(s, p);
      case DoSignal(event, handOver) => SignalInv(s, event, handOver);
      case DoCreate(priority) => CreateInv(s, priority);
    }
    var t := Step(s, l).value;
    BlockedDistinct(t.blocked, t.procs);
  }

  // ---------------------------------------------------------------- theorems

  predicate Run(s: State, ls: seq<Label>, t: State)
    decreases |ls|
  {
    if ls == [] then s == t
    else
      s.Shape() && Blocked(s) && Enabled(s, ls[0]) &&
      Step(s, ls[0]).Some? && Run(Step(s, ls[0]).value, ls[1..], t)
  }

  ghost predicate Reachable(priority: nat, s: State) {
    priority < MAX_PRIORITIES && Init(priority).Some? && exists ls :: Run(Init(priority).value, ls, s)
  }

  lemma {:induction false} RunInv(s: State, ls: seq<Label>, t: State)
    requires Inv(s) && Blocked(s) && Run(s, ls, t)
    ensures Inv(t) && Blocked(t)
    decreases |ls|
  {
    if ls != [] {
      StepInv(s, ls[0]);
      RunInv(Step(s, ls[0]).value, ls[1..], t);
    }
  }

  lemma ReachableInv(priority: nat, s: State)
    requires Reachable(priority, s)
    ensures Inv(s) && Blocked(s)
  {
    var ls :| Run(Init(priority).value, ls, s);
    RunInv(Init(priority).value, ls, s);
  }

  /** No step of any run takes the head of an empty queue. */
  lemma NeverEmptyHead(priority: nat, s: State, l: Label)
    requires Reachable(priority, s) && Enabled(s, l)
    ensures s.Shape() && Blocked(s) && Step(s, l).Some?
  {
    ReachableInv(priority, s);
    StepInv(s, l);
  }

  function Places(s: State, p: nat): nat
    requires s.Shape() && p < |s.procs|
  {
    One(p == s.cur) + Count(s.runnable[s.procs[p].priority], p) + Count(s.blocked, p)
    + One(s.procs[p].status == QWaiting)
  }

  /** Each process is running, runnable at its own priority, blocked or q-waiting: one of these, once. */
  lemma ExactlyOnePlace(priority: nat, s: State, p: nat)
    requires Reachable(priority, s) && p < |s.procs|
    ensures s.Shape() && Places(s, p) == 1
    ensures forall i :: 0 <= i < MAX_PRIORITIES && i != s.procs[p].priority ==> p !in s.runnable[i]
  {
    ReachableInv(priority, s);
    forall i | 0 <= i < MAX_PRIORITIES && i != s.procs[p].priority ensures p !in s.runnable[i] {
      assert Count(s.runnable[i], p) == 0;
    }
    assert Count(s.runnable[s.procs[p].priority], p) == One(p != s.cur && s.procs[p].status == Ready);
  }

  /** The cached priority is that of the best ready process, the running one included. */
  lemma CachedPriorityExact(priority: nat, s: State)
    requires Reachable(priority, s)
    ensures s.Shape()
    ensures forall p :: 0 <= p < |s.procs| && s.procs[p].status == Ready ==> s.procs[p].priority <= s.hrp
    ensures exists p :: 0 <= p < |s.procs| && s.procs[p].status == Ready && s.procs[p].priority == s.hrp
  {
    ReachableInv(priority, s);
    forall p | 0 <= p < |s.procs| && s.procs[p].status == Ready ensures s.procs[p].priority <= s.hrp {
      if p != s.cur {
        SomeoneRunnable(s.runnable, s.procs, s.cur, p);
      }
    }
    if s.hrp != s.Priority() {
      var p := s.runnable[s.hrp][0];
      assert p in multiset(s.runnable[s.hrp]);
      assert Count(s.runnable[s.hrp], p) == One(Due(s.procs, s.cur, s.hrp, p));
    }
  }

  /** Every step that may hand the processor over leaves a process of maximal priority running. */
  lemma BestRuns(priority: nat, s: State, l: Label, t: State)
    requires Reachable(priority, s) && Enabled(s, l) && s.Shape() && Blocked(s) && Step(s, l) == Some(t)
    requires !l.DoQSignal? && (l.DoSignal? ==> l.handOver)
    ensures forall p :: 0 <= p < |t.procs| && t.procs[p].status == Ready ==>
              t.cur < |t.procs| && t.procs[p].priority <= t.procs[t.cur].priority
  {
    ReachableInv(priority, s);
    StepInv(s, l);
    forall p | 0 <= p < |t.procs| && t.procs[p].status == Ready ensures t.procs[p].priority <= t.Priority() {
      if p != t.cur {
        SomeoneRunnable(t.runnable, t.procs, t.cur, p);
      }
    }
  }

  /** Giving the processor up works exactly when some other process is ready. */
  lemma QWaitNeedsAnother(s: State)
    requires Inv(s)
    ensures QWait(s).Some? <==> exists p :: 0 <= p < |s.procs| && p != s.cur && s.procs[p].status == Ready
  {
    var pcb := s.procs[s.cur].(status := QWaiting);
    SleptQueues(s.runnable, s.procs, s.cur, pcb);
    var u := s.(procs := s.procs[s.cur := pcb]);
    if p :| 0 <= p < |s.procs| && p != s.cur && s.procs[p].status == Ready {
      IoMissing(u, p);
    }
    if QWait(s).Some? {
      var h := QWait(s).value.hrp;
      var p := u.runnable[h][0];
      assert p in multiset(u.runnable[h]);
      assert Count(u.runnable[h], p) == One(Due(s.procs, s.cur, h, p));
    }
  }

  lemma IoMissing(s: State, other: nat)
    requires s.Shape() && Queues(s.runnable, s.procs, -1) && Highest(s.runnable, s.Priority(), s.hrp)
    requires other < |s.procs| && s.procs[other].status == Ready
    ensures GiveUp(s).Some?
  {
    SomeoneRunnable(s.runnable, s.procs, -1, other);
  }

  lemma SwitchSkips(s: State, x: nat)
    requires s.hrp < |s.runnable| && Switch(s).Some?
    requires forall i :: 0 <= i < |s.runnable| ==> Count(s.runnable[i], x) == 0
    ensures var t := Switch(s).value;
            t.cur != x && forall i :: 0 <= i < |t.runnable| ==> Count(t.runnable[i], x) == 0
  {
    var q := s.runnable[s.hrp];
    assert Count(q, x) == 0;
    assert q == [q[0]] + q[1..];
    assert multiset(q) == multiset{q[0]} + multiset(q[1..]);
  }

  lemma WaitForNone(s: State, evs: seq<int>)
    requires Inv(s) && evs != [] && Mwait(s, 0, evs).Some?
    ensures var t := Mwait(s, 0, evs).value; t.Shape() && s.cur < |t.procs| && Places(t, s.cur) == 0
  {
    var u := s.(procs := s.procs[s.cur := s.procs[s.cur].(events := evs, waitcnt := 0, wakevent := 0)]);
    assert forall i :: 0 <= i < |s.runnable| ==> Count(s.runnable[i], s.cur) == 0;
    assert Count(s.blocked, s.cur) == 0;
    SwitchSkips(if u.runnable[u.Priority()] == [] then u.(hrp := Cal(u.runnable, u.hrp)) else u, s.cur);
    var q := u.runnable[Mwait(s, 0, evs).value.hrp];
    assert q[0] in multiset(q);
    assert Count(q, q[0]) == One(Due(s.procs, s.cur, Mwait(s, 0, evs).value.hrp, q[0]));
  }

  /** With the IO manager ready, a wait always finds a process to run. */
  lemma GivesWay(s: State, wcount: nat, evs: seq<int>)
    requires Inv(s) && IO_MANAGER < |s.procs| && s.cur != IO_MANAGER
    requires evs != [] && wcount <= |evs| && 0 !in evs
    ensures Mwait(s, wcount, evs).Some?
  {
    if wcount != 0 {
      MwaitInv(s, wcount, evs);
    } else {
      SomeoneRunnable(s.runnable, s.procs, s.cur, IO_MANAGER);
    }
  }

  /** A wait for no events at all takes its caller off every queue; any other keeps it on one. */
  lemma WaitForNothing(s: State, wcount: nat, evs: seq<int>)
    requires Inv(s) && IO_MANAGER < |s.procs| && s.cur != IO_MANAGER
    requires evs != [] && wcount <= |evs| && 0 !in evs
    ensures Mwait(s, wcount, evs).Some?
    ensures var t := Mwait(s, wcount, evs).value;
            t.Shape() && s.cur < |t.procs| && (Places(t, s.cur) == 1 <==> wcount != 0)
  {
    GivesWay(s, wcount, evs);
    var t := Mwait(s, wcount, evs).value;
    if wcount != 0 {
      MwaitInv(s, wcount, evs);
      assert Count(t.runnable[t.procs[s.cur].priority], s.cur) == One(Due(t.procs, t.cur, t.procs[s.cur].priority, s.cur));
    } else {
      WaitForNone(s, evs);
    }
  }

  /** Before any other process exists, the first one cannot give the processor up. */
  lemma AloneCannotWait(priority: nat)
    requires priority < MAX_PRIORITIES
    ensures Reachable(priority, Init(priority).value) && Init(priority).value.Shape()
    ensures QWait(Init(priority).value).None?
  {
    assert Run(Init(priority).value, [], Init(priority).value);
  }

  /** The state once the first process, of a priority above 0, has created the IO manager. */
  function Started(priority: nat): State {
    State([Pcb(priority, Ready, [], 0, 0), Pcb(0, Ready, [], 0, 0)], [[1], [], [], [], []], [], 0, priority)
  }

  lemma StartedReachable(priority: nat)
    requires 0 < priority < MAX_PRIORITIES
    ensures Reachable(priority, Started(priority)) && Inv(Started(priority))
  {
    var s, l := Init(priority).value, DoCreate(0);
    assert s.runnable[0] + [1] == [1];
    assert Put(s.runnable, 0, 1) == Started(priority).runnable;
    assert s.procs + [Pcb(0, Ready, [], 0, 0)] == Started(priority).procs;
    assert Step(s, l) == Some(Started(priority));
    assert [l][1..] == [] && Run(Started(priority), [], Started(priority));
    assert Run(s, [l], Started(priority));
    ReachableInv(priority, Started(priority));
  }

  /** A reachable caller that waits for none of its events is on no queue afterwards. */
  lemma LostByWaiting(priority: nat, event: int)
    requires 0 < priority < MAX_PRIORITIES && event != 0
    ensures Reachable(priority, Started(priority)) && Started(priority).Shape()
    ensures var t := Mwait(Started(priority), 0, [event]);
            t.Some? && t.value.Shape() && 0 < |t.value.procs| && Places(t.value, 0) == 0
  {
    StartedReachable(priority);
    WaitForNothing(Started(priority), 0, [event]);
    WaitForNone(Started(priority), [event]);
  }

  // -------------------------------------------------------- first in, first out

  /** p stands before q in one run queue. */
  ghost predicate Ahead(r: seq<seq<nat>>, p: nat, q: nat) {
    exists i, a, b :: 0 <= i < |r| && 0 <= a < b < |r[i]| && r[i][a] == p && r[i][b] == q
  }

  /** Queues only grow at the tail, and lose at most their head, to the processor. */
  predicate Advanced(r: seq<seq<nat>>, t: seq<seq<nat>>, cur: nat) {
    |t| == |r| && forall i :: 0 <= i < |r| ==>
      r[i] <= t[i] || (r[i] != [] && cur == r[i][0] && r[i][1..] <= t[i])
  }

  lemma AheadAdvanced(r: seq<seq<nat>>, t: seq<seq<nat>>, cur: nat, p: nat, q: nat)
    requires Ahead(r, p, q) && Advanced(r, t, cur)
    ensures cur == p || Ahead(t, p, q)
  {
    var i, a, b :| 0 <= i < |r| && 0 <= a < b < |r[i]| && r[i][a] == p && r[i][b] == q;
    if r[i] <= t[i] {
      assert t[i][a] == p && t[i][b] == q;
    } else if a != 0 {
      assert r[i][1..][a - 1] == p && r[i][1..][b - 1] == q;
      assert t[i][a - 1] == p && t[i][b - 1] == q;
    }
  }

  predicate Grown(r: seq<seq<nat>>, t: seq<seq<nat>>) {
    |t| == |r| && forall i :: 0 <= i < |r| ==> r[i] <= t[i]
  }

  lemma SwitchAdvances(r: seq<seq<nat>>, s: State)
    requires s.hrp < |s.runnable| && Switch(s).Some? && Grown(r, s.runnable)
    ensures Advanced(r, Switch(s).value.runnable, Switch(s).value.cur)
  {
    if r[s.hrp] != [] {
      assert s.runnable[s.hrp][0] == r[s.hrp][0];
      assert r[s.hrp][1..] <= s.runnable[s.hrp][1..];
    }
  }

  lemma DispatcherAdvances(r: seq<seq<nat>>, s: State)
    requires s.Shape() && Dispatcher(s).Some? && Grown(r, s.runnable)
    ensures Advanced(r, Dispatcher(s).value.runnable, Dispatcher(s).value.cur)
  {
    var my := s.Priority();
    if my < s.hrp || s.runnable[my] != [] {
      SwitchAdvances(r, s.(runnable := Put(s.runnable, my, s.cur)));
    }
  }

  lemma GiveUpAdvances(s: State)
    requires s.Shape() && GiveUp(s).Some?
    ensures Advanced(s.runnable, GiveUp(s).value.runnable, GiveUp(s).value.cur)
  {
    SwitchAdvances(s.runnable, if s.runnable[s.Priority()] == [] then s.(hrp := Cal(s.runnable, s.hrp)) else s);
  }

  lemma {:induction false} SignalAllGrows(s: State, todo: seq<nat>, event: int)
    requires s.Shape() && forall k :: 0 <= k < |todo| ==> todo[k] < |s.procs|
    ensures Grown(s.runnable, SignalAll(s, todo, event).runnable)
    decreases |todo|
  {
    if todo != [] {
      SignalAllGrows(SignalOne(s, todo[0], event), todo[1..], event);
    }
  }

  lemma StepAdvances(s: State, l: Label)
    requires s.Shape() && Blocked(s) && Enabled(s, l) && Step(s, l).Some?
    ensures Advanced(s.runnable, Step(s, l).value.runnable, Step(s, l).value.cur)
  {
    match l
    case DoDispatch => DispatcherAdvances(s.runnable, s);
    case DoWait(wcount, evs) =>
      if evs == [] || wcount > |evs| || wcount < 0 {
        DispatcherAdvances(s.runnable, s);
      } else {
        var p := s.procs[s.cur].(events := evs, waitcnt := wcount, wakevent := 0, status := Waiting);
        GiveUpAdvances(s.(procs := s.procs[s.cur := p], blocked := s.blocked + [s.cur]));
      }
    case DoQWait => GiveUpAdvances(s.(procs := s.procs[s.cur := s.procs[s.cur].(status := QWaiting)]));
    case DoQSignal(p) =>
    case DoSignal(event, handOver) =>
      var t := if event == 0 then s else SignalAll(s, s.blocked, event);
      SignalAllGrows(s, s.blocked, event);
      if handOver {
        DispatcherAdvances(s.runnable, t.(hrp := Cal(t.runnable, t.hrp)));
      }
    case DoCreate(priority) =>
      if 0 <= priority < MAX_PRIORITIES {
        DispatcherAdvances(s.runnable, s.(procs := s.procs + [Pcb(priority, Ready, [], 0, 0)],
                           runnable := Put(s.runnable, priority, |s.procs|), hrp := Max(s.hrp, priority)));
      } else {
        DispatcherAdvances(s.runnable, s);
      }
  }

  /** p gets the processor at some step of the run. */
  predicate Gets(s: State, ls: seq<Label>, t: State, p: nat)
    requires Run(s, ls, t)
    decreases |ls|
  {
    ls != [] && (Step(s, ls[0]).value.cur == p || Gets(Step(s, ls[0]).value, ls[1..], t, p))
  }

  /** In every run, a process queued behind another of its priority runs only after it. */
  lemma {:induction false} FirstInFirstOut(priority: nat, s: State, ls: seq<Label>, t: State, p: nat, q: nat)
    requires Reachable(priority, s) && Ahead(s.runnable, p, q) && Run(s, ls, t) && t.cur == q
    ensures Gets(s, ls, t, p)
  {
    ReachableInv(priority, s);
    BehindWaits(s, ls, t, p, q);
  }

  lemma {:induction false} BehindWaits(s: State, ls: seq<Label>, t: State, p: nat, q: nat)
    requires Inv(s) && Blocked(s) && Ahead(s.runnable, p, q) && Run(s, ls, t) && t.cur == q
    ensures Gets(s, ls, t, p)
    decreases |ls|
  {
    NotRunning(s, p, q);
    if ls != [] {
      var u := Step(s, ls[0]).value;
      StepInv(s, ls[0]);
      StepAdvances(s, ls[0]);
      AheadAdvanced(s.runnable, u.runnable, u.cur, p, q);
      if u.cur != p {
        BehindWaits(u, ls[1..], t, p, q);
      }
    }
  }

  lemma NotRunning(s: State, p: nat, q: nat)
    requires Inv(s) && Ahead(s.runnable, p, q)
    ensures s.cur != q
  {
    var i, a, b :| 0 <= i < |s.runnable| && 0 <= a < b < |s.runnable[i]| && s.runnable[i][a] == p && s.runnable[i][b] == q;
    assert q in multiset(s.runnable[i]);
    assert Count(s.runnable[i], q) == One(Due(s.procs, s.cur, i, q));
  }

  // --------------------------------------------------- waiting for m of n events

  function Signalled(pcb: Pcb, signals: seq<int>): Pcb
    decreases |signals|
  {
    if signals == [] || pcb.waitcnt == 0 then pcb else Signalled(Strike(pcb, 0, signals[0]), signals[1..])
  }

  /** The entries of the list whose event is among the signals. */
  function Covered(evs: seq<int>, signals: seq<int>): nat {
    if evs == [] then 0 else Covered(evs[..|evs| - 1], signals) + One(evs[|evs| - 1] != 0 && evs[|evs| - 1] in signals)
  }

  lemma {:induction false} CoveredNulled(evs: seq<int>, i: nat, signals: seq<int>)
    requires i < |evs| && evs[i] != 0 && evs[i] in signals
    ensures Covered(evs[i := 0], signals) == Covered(evs, signals) - 1
    decreases |evs|
  {
    var n := |evs| - 1;
    if i == n {
      assert evs[i := 0][..n] == evs[..n];
    } else {
      CoveredNulled(evs[..n], i, signals);
      assert evs[i := 0][..n] == evs[..n][i := 0];
    }
  }

  lemma {:induction false} CoveredWithout(evs: seq<int>, e: int, signals: seq<int>)
    requires forall j :: 0 <= j < |evs| ==> evs[j] != e
    ensures Covered(evs, [e] + signals) == Covered(evs, signals)
    decreases |evs|
  {
    if evs != [] {
      CoveredWithout(evs[..|evs| - 1], e, signals);
    }
  }

  /** A strike that does not wake leaves no entry of its event, and counted each. */
  lemma {:induction false} StrikeCounts(pcb: Pcb, i: nat, e: int, signals: seq<int>)
    requires 0 < pcb.waitcnt && e != 0 && e in signals
    requires forall j :: 0 <= j < i && j < |pcb.events| ==> pcb.events[j] != e
    ensures var r := Strike(pcb, i, e);
            && 0 <= r.waitcnt
            && pcb.waitcnt - r.waitcnt == Covered(pcb.events, signals) - Covered(r.events, signals)
            && (r.waitcnt != 0 ==> forall j :: 0 <= j < |r.events| ==> r.events[j] != e)
    decreases |pcb.events| - i
  {
    if i < |pcb.events| {
      if pcb.events[i] == e {
        CoveredNulled(pcb.events, i, signals);
        var hit := pcb.(events := pcb.events[i := 0], waitcnt := pcb.waitcnt - 1);
        if hit.waitcnt != 0 {
          StrikeCounts(hit, i + 1, e, signals);
        }
      } else {
        StrikeCounts(pcb, i + 1, e, signals);
      }
    }
  }

  /** A process that waits for m of its n entries becomes ready exactly once m of them have been signalled. */
  lemma {:induction false} WaitExact(pcb: Pcb, signals: seq<int>)
    requires 0 < pcb.waitcnt && 0 !in signals
    ensures Signalled(pcb, signals).waitcnt == 0 <==> pcb.waitcnt <= Covered(pcb.events, signals)
    decreases |signals|
  {
    if signals == [] {
      CoveredNone(pcb.events);
    } else {
      var r := Strike(pcb, 0, signals[0]);
      assert signals == [signals[0]] + signals[1..];
      StrikeCounts(pcb, 0, signals[0], signals);
      if r.waitcnt != 0 {
        CoveredWithout(r.events, signals[0], signals[1..]);
        WaitExact(r, signals[1..]);
      }
    }
  }

  lemma {:induction false} CoveredNone(evs: seq<int>)
    ensures Covered(evs, []) == 0
    decreases |evs|
  {
    if evs != [] {
      CoveredNone(evs[..|evs| - 1]);
    }
  }
}
