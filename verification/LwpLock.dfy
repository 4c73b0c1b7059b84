/**
 * The read, shared and write locks of lwp/lock.c and lwp/lock.h under LWP's cooperative
 * threads.  A thread runs without interruption until it sleeps, so the code of a lock
 * operation up to LWP_WaitProcess, and the code after it up to the next sleep, are the
 * steps of the system.  readers_reading and num_waiting are 8-bit counters, as declared.
 */
module LwpLock {
  datatype How = Read | Write | Shared | Boosted

  datatype Excl = Unlocked | WriteLocked | SharedLocked

  /** A boosting thread keeps its shared lock while it sleeps. */
  datatype Thread = Free | HoldsRead | HoldsWrite | HoldsShared | Asleep(how: How) | Woken(how: How)

  /** waitR, waitW and waitS are the bits of wait_states. */
  datatype Lock = Lock(waitR: bool, waitW: bool, waitS: bool, excl: Excl, readers: nat, numWaiting: nat) {
    predicate Waiters() {
      waitR || waitW || waitS
    }
  }

  datatype State = State(lock: Lock, threads: seq<Thread>)

  // ------------------------------------------------------------- operations

  /** ++ and -- of an unsigned char. */
  function Inc(n: nat): nat {
    if n == 255 then 0 else n + 1
  }

  function Dec(n: nat): nat {
    if n == 0 then 255 else n - 1
  }

  /** The test before the lock is taken without sleeping. */
  predicate BlocksAtOnce(l: Lock, how: How) {
    match how
    case Read => l.excl == WriteLocked || l.Waiters()
    case Write => l.excl != Unlocked || l.readers != 0
    case Shared => l.excl != Unlocked || l.Waiters()
    case Boosted => l.readers != 0
  }

  /** The test at the end of each turn of the loop in Lock_Obtain. */
  predicate BlocksAgain(l: Lock, how: How) {
    match how
    case Read => l.excl == WriteLocked
    case Write => l.excl != Unlocked || l.readers != 0
    case Shared => l.excl != Unlocked
    case Boosted => l.readers != 0
  }

  function Taken(l: Lock, how: How): Lock {
    match how
    case Read => l.(readers := Inc(l.readers))
    case Write => l.(excl := WriteLocked)
    case Shared => l.(excl := SharedLocked)
    case Boosted => l.(excl := WriteLocked)
  }

  function Marked(l: Lock, how: How): Lock {
    match how
    case Read => l.(waitR := true)
    case Write => l.(waitW := true)
    case Shared => l.(waitS := true)
    case Boosted => l.(waitW := true)
  }

  function Holding(how: How): Thread {
    match how case Read => HoldsRead case Write => HoldsWrite case Shared => HoldsShared case Boosted => HoldsWrite
  }

  function Obtain(s: State, t: nat, how: How): State
    requires t < |s.threads|
  {
    if BlocksAtOnce(s.lock, how) then
      State(Marked(s.lock.(numWaiting := Inc(s.lock.numWaiting)), how), s.threads[t := Asleep(how)])
    else State(Taken(s.lock, how), s.threads[t := Holding(how)])
  }

  function Retry(s: State, t: nat): State
    requires t < |s.threads| && s.threads[t].Woken?
  {
    var how := s.threads[t].how;
    if BlocksAgain(s.lock, how) then State(Marked(s.lock, how), s.threads[t := Asleep(how)])
    else State(Taken(s.lock.(numWaiting := Dec(s.lock.numWaiting)), how), s.threads[t := Holding(how)])
  }

  /** What LWP_NoYieldSignal on readers_reading, or on excl_locked, does to a thread. */
  function Wake(x: Thread, readers: bool): Thread {
    if x.Asleep? && x.how.Read? == readers then Woken(x.how) else x
  }

  function Signalled(ts: seq<Thread>, readers: bool): (r: seq<Thread>)
    ensures |r| == |ts|
  {
    if ts == [] then [] else Signalled(ts[..|ts| - 1], readers) + [Wake(ts[|ts| - 1], readers)]
  }

  function WakeReaders(s: State): State {
    State(s.lock.(waitR := false), Signalled(s.threads, true))
  }

  function WakeExclusive(s: State): State {
    State(s.lock.(waitW := false, waitS := false), Signalled(s.threads, false))
  }

  function ReleaseR(s: State): State {
    if s.lock.waitR then WakeReaders(s) else WakeExclusive(s)
  }

  function ReleaseW(s: State): State {
    if s.lock.waitW || s.lock.waitS then WakeExclusive(s) else WakeReaders(s)
  }

  function ReleaseRead(s: State, t: nat): State
    requires t < |s.threads|
  {
    var r := Dec(s.lock.readers);
    var s1 := State(s.lock.(readers := r), s.threads[t := Free]);
    if r == 0 && s.lock.Waiters() then ReleaseW(s1) else s1
  }

  /** A write or shared lock is given up, or a write lock reduced to a shared one. */
  function ReleaseExclusive(s: State, t: nat, keep: bool): State
    requires t < |s.threads|
  {
    var s1 := State(s.lock.(excl := if keep then SharedLocked else Unlocked),
                    s.threads[t := if keep then HoldsShared else Free]);
    if s.lock.Waiters() then ReleaseR(s1) else s1
  }

  // -------------------------------------------------------------------- runs

  datatype Label = DoObtain(t: nat, how: How) | DoRetry(t: nat) | DoRelease(t: nat) | DoUnboost(t: nat)

  /** What a caller of the macro holds: nothing, or the shared lock it boosts. */
  function Before(how: How): Thread {
    if how == Boosted then HoldsShared else Free
  }

  predicate Enabled(s: State, l: Label) {
    l.t < |s.threads| &&
    match l
    case DoObtain(t, how) => s.threads[t] == Before(how)
    case DoRetry(t) => s.threads[t].Woken?
    case DoRelease(t) => s.threads[t] == HoldsRead || s.threads[t] == HoldsWrite || s.threads[t] == HoldsShared
    case DoUnboost(t) => s.threads[t] == HoldsWrite
  }

  function Step(s: State, l: Label): State
    requires Enabled(s, l)
  {
    match l
    case DoObtain(t, how) => Obtain(s, t, how)
    case DoRetry(t) => Retry(s, t)
    case DoRelease(t) => if s.threads[t] == HoldsRead then ReleaseRead(s, t) else ReleaseExclusive(s, t, false)
    case DoUnboost(t) => ReleaseExclusive(s, t, true)
  }

  function Init(n: nat): State {
    State(Lock(false, false, false, Unlocked, 0, 0), seq(n, _ => Free))
  }

  predicate Run(s: State, ls: seq<Label>, t: State)
    decreases |ls|
  {
    if ls == [] then s == t else Enabled(s, ls[0]) && Run(Step(s, ls[0]), ls[1..], t)
  }

  // --------------------------------------------------------- what is claimed

  /** The thread has the write lock or the shared lock, boosting or not. */
  predicate Exclusive(x: Thread) {
    x == HoldsWrite || x == HoldsShared || x == Asleep(Boosted) || x == Woken(Boosted)
  }

  /** WRITE excludes every other holder, SHARED every other exclusive one. */
  ghost predicate Exclusion(ts: seq<Thread>) {
    forall i, j :: 0 <= i < |ts| && 0 <= j < |ts| && i != j && Exclusive(ts[i]) ==>
      !Exclusive(ts[j]) && (ts[i] == HoldsWrite ==> ts[j] != HoldsRead)
  }

  /** The wait bits are set exactly when their kind of sleeper exists. */
  ghost predicate BitsExact(l: Lock, ts: seq<Thread>) {
    && (l.waitR <==> Asleep(Read) in ts)
    && (l.waitW <==> Asleep(Write) in ts || Asleep(Boosted) in ts)
    && (l.waitS <==> Asleep(Shared) in ts)
  }

  predicate Awake(x: Thread) {
    x == HoldsRead || x == HoldsWrite || x == HoldsShared || x.Woken?
  }

  /** While anybody sleeps there is a thread awake that holds the lock or has yet to retry. */
  ghost predicate NoLostWakeup(ts: seq<Thread>) {
    (exists i :: 0 <= i < |ts| && ts[i].Asleep?) ==> exists i :: 0 <= i < |ts| && Awake(ts[i])
  }

  // -------------------------------------------------------------- invariant

  /** What an unsigned char shows of a count of at most 256. */
  function Low(n: nat): nat {
    if n == 256 then 0 else n
  }

  type Census = multiset<Thread>

  function Sleeping(c: Census): nat {
    c[Asleep(Read)] + c[Asleep(Write)] + c[Asleep(Shared)] + c[Asleep(Boosted)]
  }

  function Retrying(c: Census): nat {
    c[Woken(Read)] + c[Woken(Write)] + c[Woken(Shared)] + c[Woken(Boosted)]
  }

  predicate BitsOk(l: Lock, c: Census) {
    && (l.waitR <==> 0 < c[Asleep(Read)])
    && (l.waitW <==> 0 < c[Asleep(Write)] + c[Asleep(Boosted)])
    && (l.waitS <==> 0 < c[Asleep(Shared)])
  }

  predicate HoldersOk(l: Lock, c: Census) {
    && c[HoldsWrite] == (if l.excl == WriteLocked then 1 else 0)
    && c[HoldsShared] + c[Asleep(Boosted)] + c[Woken(Boosted)] == (if l.excl == SharedLocked then 1 else 0)
    && (0 < c[HoldsWrite] ==> c[HoldsRead] == 0)
    && l.readers == Low(c[HoldsRead])
  }

  predicate Attended(c: Census) {
    && (0 < Sleeping(c) ==> 0 < c[HoldsRead] + c[HoldsWrite] + c[HoldsShared] + Retrying(c))
    && (0 < c[Asleep(Boosted)] ==> 0 < c[HoldsRead])
  }

  /** The threads inside Lock_Obtain. */
  function Waiting(ts: seq<Thread>): nat {
    if ts == [] then 0
    else Waiting(ts[..|ts| - 1]) + if ts[|ts| - 1].Asleep? || ts[|ts| - 1].Woken? then 1 else 0
  }

  predicate Bits(s: State) {
    BitsOk(s.lock, multiset(s.threads))
  }

  predicate Holders(s: State) {
    HoldersOk(s.lock, multiset(s.threads))
  }

  predicate Served(s: State) {
    Attended(multiset(s.threads))
  }

  predicate Counted(s: State) {
    s.lock.numWaiting == Low(Waiting(s.threads))
  }

  predicate Inv(s: State) {
    |s.threads| <= 256 && Bits(s) && Holders(s) && Served(s) && Counted(s)
  }

  // ------------------------------------------------------------ census lemmas

  function Moved(c: Census, x: Thread, y: Thread): Census {
    c - multiset{x} + multiset{y}
  }

  lemma Replaced(ts: seq<Thread>, t: nat, y: Thread)
    requires t < |ts|
    ensures multiset(ts[t := y]) == Moved(multiset(ts), ts[t], y)
    ensures 0 < multiset(ts)[ts[t]]
  {
    assert ts[t] in multiset(ts);
  }

  lemma LastOut(ts: seq<Thread>)
    requires ts != []
    ensures multiset(ts) == multiset(ts[..|ts| - 1]) + multiset{ts[|ts| - 1]}
  {
    assert ts == ts[..|ts| - 1] + [ts[|ts| - 1]];
  }

  lemma {:induction false} TwoKinds(ts: seq<Thread>, x: Thread, y: Thread)
    requires x != y
    ensures multiset(ts)[x] + multiset(ts)[y] <= |ts|
    decreases |ts|
  {
    if ts != [] {
      LastOut(ts);
      TwoKinds(ts[..|ts| - 1], x, y);
    }
  }

  lemma {:induction false} SignalledCensus(ts: seq<Thread>, readers: bool, h: How)
    ensures multiset(Signalled(ts, readers))[Asleep(h)] == if h.Read? == readers then 0 else multiset(ts)[Asleep(h)]
    ensures multiset(Signalled(ts, readers))[Woken(h)] ==
            multiset(ts)[Woken(h)] + if h.Read? == readers then multiset(ts)[Asleep(h)] else 0
    decreases |ts|
  {
    if ts != [] {
      LastOut(ts);
      SignalledCensus(ts[..|ts| - 1], readers, h);
    }
  }

  lemma {:induction false} SignalledOthers(ts: seq<Thread>, readers: bool, x: Thread)
    requires !x.Asleep? && !x.Woken?
    ensures multiset(Signalled(ts, readers))[x] == multiset(ts)[x]
    decreases |ts|
  {
    if ts != [] {
      LastOut(ts);
      SignalledOthers(ts[..|ts| - 1], readers, x);
    }
  }

  // ----------------------------------------------------------- preservation

  lemma SleepBits(l: Lock, c: Census, how: How, x: Thread)
    requires BitsOk(l, c) && 0 < c[x] && !x.Asleep?
    ensures BitsOk(Marked(l, how), Moved(c, x, Asleep(how)))
  {
  }

  lemma SleepHolders(l: Lock, c: Census, how: How, x: Thread)
    requires HoldersOk(l, c) && 0 < c[x]
    requires x == Before(how) || x == Woken(how)
    ensures HoldersOk(Marked(l, how), Moved(c, x, Asleep(how)))
  {
  }

  lemma SleepAttended(l: Lock, c: Census, how: How, x: Thread)
    requires BitsOk(l, c) && HoldersOk(l, c) && Attended(c) && 0 < c[x]
    requires x == Before(how) || x == Woken(how)
    requires if x.Woken? then BlocksAgain(l, how) else BlocksAtOnce(l, how)
    ensures Attended(Moved(c, x, Asleep(how)))
  {
  }

  lemma GrantBits(l: Lock, c: Census, how: How, x: Thread)
    requires BitsOk(l, c) && 0 < c[x] && !x.Asleep?
    ensures BitsOk(Taken(l, how), Moved(c, x, Holding(how)))
  {
  }

  lemma GrantHolders(l: Lock, c: Census, how: How, x: Thread)
    requires HoldersOk(l, c) && 0 < c[x] && c[HoldsRead] < 256
    requires x == Before(how) || x == Woken(how)
    requires !BlocksAgain(l, how)
    ensures HoldersOk(Taken(l, how), Moved(c, x, Holding(how)))
  {
  }

  lemma GrantAttended(c: Census, how: How, x: Thread)
    requires Attended(c) && 0 < c[x]
    requires x == Before(how) || x == Woken(how)
    ensures Attended(Moved(c, x, Holding(how)))
  {
  }

  lemma {:induction false} ReplacedWaiting(ts: seq<Thread>, t: nat, y: Thread)
    requires t < |ts|
    ensures Waiting(ts[t := y]) == Waiting(ts) - (if ts[t].Asleep? || ts[t].Woken? then 1 else 0)
                                   + (if y.Asleep? || y.Woken? then 1 else 0)
    decreases |ts|
  {
    var n := |ts| - 1;
    if t == n {
      assert ts[t := y][..n] == ts[..n];
    } else {
      ReplacedWaiting(ts[..n], t, y);
      assert ts[t := y][..n] == ts[..n][t := y];
    }
  }

  lemma {:induction false} SignalledWaiting(ts: seq<Thread>, readers: bool)
    ensures Waiting(Signalled(ts, readers)) == Waiting(ts)
    decreases |ts|
  {
    if ts != [] {
      SignalledWaiting(ts[..|ts| - 1], readers);
    }
  }

  lemma {:induction false} WaitingBound(ts: seq<Thread>)
    ensures Waiting(ts) <= |ts|
    decreases |ts|
  {
    if ts != [] {
      WaitingBound(ts[..|ts| - 1]);
    }
  }

  lemma AtMost256Readers(s: State, t: nat)
    requires |s.threads| <= 256 && t < |s.threads| && s.threads[t] != HoldsRead
    ensures multiset(s.threads)[HoldsRead] < 256
  {
    TwoKinds(s.threads, s.threads[t], HoldsRead);
    assert s.threads[t] in multiset(s.threads);
  }

  /** Where a call to obtain or a retry leads. */
  function Turn(s: State, t: nat, how: How): State
    requires t < |s.threads|
    requires s.threads[t] == Before(how) || s.threads[t] == Woken(how)
  {
    if s.threads[t].Woken? then Retry(s, t) else Obtain(s, t, how)
  }

  predicate Sleeps(s: State, t: nat, how: How)
    requires t < |s.threads|
  {
    if s.threads[t].Woken? then BlocksAgain(s.lock, how) else BlocksAtOnce(s.lock, how)
  }

  lemma TurnBits(s: State, t: nat, how: How)
    requires Bits(s) && t < |s.threads| && (s.threads[t] == Before(how) || s.threads[t] == Woken(how))
    ensures Bits(Turn(s, t, how))
  {
    var c, x := multiset(s.threads), s.threads[t];
    if Sleeps(s, t, how) {
      Replaced(s.threads, t, Asleep(how));
      SleepBits(s.lock, c, how, x);
    } else {
      Replaced(s.threads, t, Holding(how));
      GrantBits(s.lock, c, how, x);
    }
  }

  lemma TurnHolders(s: State, t: nat, how: How)
    requires |s.threads| <= 256 && Holders(s) && t < |s.threads| && (s.threads[t] == Before(how) || s.threads[t] == Woken(how))
    ensures Holders(Turn(s, t, how))
  {
    if Sleeps(s, t, how) {
      SleptHolders(s, t, how);
    } else {
      GrantedHolders(s, t, how);
    }
  }

  lemma SleptHolders(s: State, t: nat, how: How)
    requires Holders(s) && t < |s.threads| && (s.threads[t] == Before(how) || s.threads[t] == Woken(how)) && Sleeps(s, t, how)
    ensures Holders(Turn(s, t, how))
  {
    Replaced(s.threads, t, Asleep(how));
    SleepHolders(s.lock, multiset(s.threads), how, s.threads[t]);
  }

  lemma GrantedHolders(s: State, t: nat, how: How)
    requires |s.threads| <= 256 && Holders(s) && t < |s.threads|
    requires (s.threads[t] == Before(how) || s.threads[t] == Woken(how)) && !Sleeps(s, t, how)
    ensures Holders(Turn(s, t, how))
  {
    AtMost256Readers(s, t);
    Replaced(s.threads, t, Holding(how));
    GrantHolders(s.lock, multiset(s.threads), how, s.threads[t]);
  }

  lemma TurnServed(s: State, t: nat, how: How)
    requires Inv(s) && t < |s.threads| && (s.threads[t] == Before(how) || s.threads[t] == Woken(how))
    ensures Served(Turn(s, t, how))
  {
    var c, x := multiset(s.threads), s.threads[t];
    if Sleeps(s, t, how) {
      Replaced(s.threads, t, Asleep(how));
      SleepAttended(s.lock, c, how, x);
    } else {
      Replaced(s.threads, t, Holding(how));
      GrantAttended(c, how, x);
    }
  }

  lemma TurnCounted(s: State, t: nat, how: How)
    requires |s.threads| <= 256 && Counted(s) && t < |s.threads| && (s.threads[t] == Before(how) || s.threads[t] == Woken(how))
    ensures Counted(Turn(s, t, how))
  {
    ReplacedWaiting(s.threads, t, Asleep(how));
    ReplacedWaiting(s.threads, t, Holding(how));
    WaitingBound(s.threads);
    WaitingBound(s.threads[t := Asleep(how)]);
  }

  /** The census after a signal. */
  predicate Signals(c: Census, d: Census, readers: bool) {
    && d[HoldsRead] == c[HoldsRead] && d[HoldsWrite] == c[HoldsWrite] && d[HoldsShared] == c[HoldsShared]
    && d[Asleep(Read)] == (if readers then 0 else c[Asleep(Read)])
    && d[Asleep(Write)] == (if readers then c[Asleep(Write)] else 0)
    && d[Asleep(Shared)] == (if readers then c[Asleep(Shared)] else 0)
    && d[Asleep(Boosted)] == (if readers then c[Asleep(Boosted)] else 0)
    && d[Woken(Read)] == c[Woken(Read)] + c[Asleep(Read)] - d[Asleep(Read)]
    && d[Woken(Write)] == c[Woken(Write)] + c[Asleep(Write)] - d[Asleep(Write)]
    && d[Woken(Shared)] == c[Woken(Shared)] + c[Asleep(Shared)] - d[Asleep(Shared)]
    && d[Woken(Boosted)] == c[Woken(Boosted)] + c[Asleep(Boosted)] - d[Asleep(Boosted)]
  }

  lemma SignalsIt(ts: seq<Thread>, readers: bool)
    ensures Signals(multiset(ts), multiset(Signalled(ts, readers)), readers)
  {
    SignalledOthers(ts, readers, HoldsRead);
    SignalledOthers(ts, readers, HoldsWrite);
    SignalledOthers(ts, readers, HoldsShared);
    SignalledCensus(ts, readers, Read);
    SignalledCensus(ts, readers, Write);
    SignalledCensus(ts, readers, Shared);
    SignalledCensus(ts, readers, Boosted);
  }

  /** Between giving the lock up and the signal only the sleepers' attendance is in doubt. */
  predicate Released(s: State) {
    |s.threads| <= 256 && Bits(s) && Holders(s) && Counted(s)
  }

  lemma WakeReadersInv(s: State)
    requires Released(s) && s.lock.waitR && multiset(s.threads)[Asleep(Boosted)] == 0
    ensures Inv(WakeReaders(s))
  {
    SignalsIt(s.threads, true);
    SignalledWaiting(s.threads, true);
  }

  lemma WakeExclusiveInv(s: State)
    requires Released(s) && (s.lock.waitW || s.lock.waitS)
    ensures Inv(WakeExclusive(s))
  {
    SignalsIt(s.threads, false);
    SignalledWaiting(s.threads, false);
  }

  lemma GivenUp(s: State, t: nat)
    requires Inv(s) && t < |s.threads| && s.threads[t] == HoldsRead
    ensures Released(State(s.lock.(readers := Dec(s.lock.readers)), s.threads[t := Free]))
    ensures 0 < Dec(s.lock.readers) || !s.lock.Waiters() ==>
              Served(State(s.lock.(readers := Dec(s.lock.readers)), s.threads[t := Free]))
  {
    Replaced(s.threads, t, Free);
    ReplacedWaiting(s.threads, t, Free);
    TwoKinds(s.threads, HoldsRead, Free);
  }

  lemma ReleaseReadInv(s: State, t: nat)
    requires Inv(s) && t < |s.threads| && s.threads[t] == HoldsRead
    ensures Inv(ReleaseRead(s, t))
  {
    GivenUp(s, t);
    var s1 := State(s.lock.(readers := Dec(s.lock.readers)), s.threads[t := Free]);
    if s1.lock.readers == 0 && s.lock.Waiters() {
      if s.lock.waitW || s.lock.waitS {
        WakeExclusiveInv(s1);
      } else {
        WakeReadersInv(s1);
      }
    }
  }

  lemma Dropped(s: State, t: nat, keep: bool)
    requires Inv(s) && t < |s.threads| && (s.threads[t] == HoldsWrite || (s.threads[t] == HoldsShared && !keep))
    ensures var s1 := State(s.lock.(excl := if keep then SharedLocked else Unlocked),
                            s.threads[t := if keep then HoldsShared else Free]);
            && Released(s1) && multiset(s1.threads)[Asleep(Boosted)] == 0
            && (!s.lock.Waiters() ==> Served(s1))
  {
    var x := if keep then HoldsShared else Free;
    Replaced(s.threads, t, x);
    ReplacedWaiting(s.threads, t, x);
  }

  lemma ReleaseExclusiveInv(s: State, t: nat, keep: bool)
    requires Inv(s) && t < |s.threads| && (s.threads[t] == HoldsWrite || (s.threads[t] == HoldsShared && !keep))
    ensures Inv(ReleaseExclusive(s, t, keep))
  {
    Dropped(s, t, keep);
    var s1 := State(s.lock.(excl := if keep then SharedLocked else Unlocked),
                    s.threads[t := if keep then HoldsShared else Free]);
    if s.lock.waitR {
      WakeReadersInv(s1);
    } else if s.lock.Waiters() {
      WakeExclusiveInv(s1);
    }
  }

  lemma TurnInv(s: State, t: nat, how: How)
    requires Inv(s) && t < |s.threads| && (s.threads[t] == Before(how) || s.threads[t] == Woken(how))
    ensures Inv(Turn(s, t, how))
  {
    TurnBits(s, t, how);
    TurnHolders(s, t, how);
    TurnServed(s, t, how);
    TurnCounted(s, t, how);
  }

  lemma StepInv(s: State, l: Label)
    requires Inv(s) && Enabled(s, l)
    ensures Inv(Step(s, l)) && |Step(s, l).threads| == |s.threads|
  {
    match l
    case DoObtain(t, how) => TurnInv(s, t, how);
    case DoRetry(t) => TurnInv(s, t, s.threads[t].how);
    case DoRelease(t) => if s.threads[t] == HoldsRead { ReleaseReadInv(s, t); } else { ReleaseExclusiveInv(s, t, false); }
    case DoUnboost(t) => ReleaseExclusiveInv(s, t, true);
  }

  lemma {:induction false} RunInv(s: State, ls: seq<Label>, t: State)
    requires Inv(s) && Run(s, ls, t)
    ensures Inv(t) && |t.threads| == |s.threads|
    decreases |ls|
  {
    if ls != [] {
      StepInv(s, ls[0]);
      RunInv(Step(s, ls[0]), ls[1..], t);
    }
  }

  // ---------------------------------------------------------------- theorems

  lemma {:induction false} AllFree(n: nat)
    ensures multiset(Init(n).threads)[Free] == n && Waiting(Init(n).threads) == 0
    ensures forall x :: x != Free ==> multiset(Init(n).threads)[x] == 0
    decreases n
  {
    if n != 0 {
      AllFree(n - 1);
      LastOut(Init(n).threads);
      assert Init(n).threads[..n - 1] == Init(n - 1).threads;
    }
  }

  lemma Pair(ts: seq<Thread>, i: nat, j: nat)
    requires i < |ts| && j < |ts| && i != j
    ensures 1 <= multiset(ts)[ts[i]] && 1 <= multiset(ts)[ts[j]]
    ensures ts[i] == ts[j] ==> 2 <= multiset(ts)[ts[i]]
  {
    var y := if ts[j] == Free then HoldsRead else Free;
    var us := ts[i := y];
    Replaced(ts, i, y);
    Replaced(ts, j, y);
    assert us[j] in multiset(us);
  }

  lemma InvExclusion(s: State)
    requires Holders(s)
    ensures Exclusion(s.threads)
  {
    var ts := s.threads;
    forall i, j | 0 <= i < |ts| && 0 <= j < |ts| && i != j && Exclusive(ts[i])
      ensures !Exclusive(ts[j]) && (ts[i] == HoldsWrite ==> ts[j] != HoldsRead)
    {
      Pair(ts, i, j);
    }
  }

  lemma InvAwake(s: State)
    requires Inv(s)
    ensures NoLostWakeup(s.threads)
  {
    var ts, c := s.threads, multiset(s.threads);
    if i :| 0 <= i < |ts| && ts[i].Asleep? {
      assert ts[i] in c;
      assert 0 < Sleeping(c) by {
        match ts[i].how case Read => case Write => case Shared => case Boosted =>
      }
      var x := AwakeOne(c);
      assert x in ts;
    }
  }

  lemma AwakeOne(c: Census) returns (x: Thread)
    requires Attended(c) && 0 < Sleeping(c)
    ensures Awake(x) && x in c
  {
    x := if 0 < c[HoldsRead] then HoldsRead else if 0 < c[HoldsWrite] then HoldsWrite
         else if 0 < c[HoldsShared] then HoldsShared else if 0 < c[Woken(Read)] then Woken(Read)
         else if 0 < c[Woken(Write)] then Woken(Write) else if 0 < c[Woken(Shared)] then Woken(Shared)
         else Woken(Boosted);
  }

  /** Every run of at most 256 threads is safe, loses no wake-up and keeps the bits exact. */
  lemma LockSafety(n: nat, ls: seq<Label>, t: State)
    requires n <= 256 && Run(Init(n), ls, t)
    ensures Exclusion(t.threads) && BitsExact(t.lock, t.threads) && NoLostWakeup(t.threads)
    ensures t.lock.numWaiting == Low(Waiting(t.threads))
  {
    AllFree(n);
    RunInv(Init(n), ls, t);
    InvExclusion(t);
    InvAwake(t);
    forall x ensures x in t.threads <==> 0 < multiset(t.threads)[x] {
      assert x in t.threads <==> x in multiset(t.threads);
    }
  }

  lemma {:induction false} RunSnoc(s: State, ls: seq<Label>, t: State, l: Label)
    requires Run(s, ls, t) && Enabled(t, l)
    ensures Run(s, ls + [l], Step(t, l))
    decreases |ls|
  {
    if ls == [] {
      assert [l][1..] == [];
    } else {
      RunSnoc(Step(s, ls[0]), ls[1..], t, l);
      assert (ls + [l])[1..] == ls[1..] + [l];
    }
  }

  /** The first k threads read. */
  function Reading(n: nat, k: nat): State {
    State(Lock(false, false, false, Unlocked, Low(k), 0), seq(n, i => if i < k then HoldsRead else Free))
  }

  lemma {:induction false} Readers(n: nat, k: nat) returns (ls: seq<Label>)
    requires k <= n && k <= 256
    ensures Run(Init(n), ls, Reading(n, k))
  {
    ls := [];
    assert Reading(n, 0).threads == Init(n).threads;
    for i := 0 to k
      invariant Run(Init(n), ls, Reading(n, i))
    {
      var l := DoObtain(i, Read);
      RunSnoc(Init(n), ls, Reading(n, i), l);
      assert Reading(n, i).threads[i := HoldsRead] == Reading(n, i + 1).threads;
      ls := ls + [l];
    }
  }

  /** With 257 threads the count of 256 readers shows 0 and a writer joins them. */
  lemma ReadersOverflow(n: nat) returns (ls: seq<Label>, t: State)
    requires 256 < n
    ensures Run(Init(n), ls, t) && !Exclusion(t.threads)
  {
    ls := Readers(n, 256);
    var s := Reading(n, 256);
    var l := DoObtain(256, Write);
    assert s.threads[256] == Free && s.threads[0] == HoldsRead;
    RunSnoc(Init(n), ls, s, l);
    ls, t := ls + [l], Step(s, l);
    assert t.threads[256] == HoldsWrite && t.threads[0] == HoldsRead;
    assert Exclusive(t.threads[256]);
  }

  ghost predicate AlwaysExclusive(n: nat) {
    forall ls, t :: Run(Init(n), ls, t) ==> Exclusion(t.threads)
  }

  /** The locks exclude in every run exactly when no more than 256 threads share one. */
  lemma SafeExactly(n: nat)
    ensures AlwaysExclusive(n) <==> n <= 256
  {
    if n <= 256 {
      forall ls, t | Run(Init(n), ls, t) ensures Exclusion(t.threads) {
        LockSafety(n, ls, t);
      }
    } else {
      var ls, t := ReadersOverflow(n);
      assert Run(Init(n), ls, t) && !Exclusion(t.threads);
    }
  }

  // ----------------------------------------------------------------- progress

  /** The lock operations a thread still has before it. */
  function Work(ts: seq<Thread>): nat {
    if ts == [] then 0 else Work(ts[..|ts| - 1]) + Left(ts[|ts| - 1])
  }

  function Left(x: Thread): nat {
    if x == Free then 0 else if x.Asleep? || x.Woken? then 2 else 1
  }

  lemma {:induction false} WorkReplaced(ts: seq<Thread>, t: nat, y: Thread)
    requires t < |ts|
    ensures Work(ts[t := y]) == Work(ts) - Left(ts[t]) + Left(y)
    decreases |ts|
  {
    var n := |ts| - 1;
    if t == n {
      assert ts[t := y][..n] == ts[..n];
    } else {
      WorkReplaced(ts[..n], t, y);
      assert ts[t := y][..n] == ts[..n][t := y];
    }
  }

  lemma {:induction false} WorkSignalled(ts: seq<Thread>, readers: bool)
    ensures Work(Signalled(ts, readers)) == Work(ts)
    decreases |ts|
  {
    if ts != [] {
      WorkSignalled(ts[..|ts| - 1], readers);
    }
  }

  predicate Holds(x: Thread) {
    x == HoldsRead || x == HoldsWrite || x == HoldsShared
  }

  lemma WakingWork(s: State)
    ensures var u := ReleaseR(s); |u.threads| == |s.threads| && Work(u.threads) == Work(s.threads)
    ensures var u := ReleaseW(s); |u.threads| == |s.threads| && Work(u.threads) == Work(s.threads)
  {
    WorkSignalled(s.threads, true);
    WorkSignalled(s.threads, false);
  }

  lemma ReleaseReadWork(s: State, t: nat)
    requires t < |s.threads| && s.threads[t] == HoldsRead
    ensures var u := ReleaseRead(s, t); |u.threads| == |s.threads| && Work(u.threads) < Work(s.threads)
  {
    WorkReplaced(s.threads, t, Free);
    WakingWork(State(s.lock.(readers := Dec(s.lock.readers)), s.threads[t := Free]));
  }

  lemma ReleaseExclusiveWork(s: State, t: nat)
    requires t < |s.threads| && (s.threads[t] == HoldsWrite || s.threads[t] == HoldsShared)
    ensures var u := ReleaseExclusive(s, t, false); |u.threads| == |s.threads| && Work(u.threads) < Work(s.threads)
  {
    WorkReplaced(s.threads, t, Free);
    WakingWork(State(s.lock.(excl := Unlocked), s.threads[t := Free]));
  }

  lemma {:induction false} SomeWork(ts: seq<Thread>) returns (x: Thread)
    requires 0 < Work(ts)
    ensures x in ts && x != Free
    decreases |ts|
  {
    x := ts[|ts| - 1];
    if x == Free {
      x := SomeWork(ts[..|ts| - 1]);
    }
  }

  lemma WokenOne(s: State) returns (x: Thread)
    requires Inv(s) && 0 < Work(s.threads)
    requires forall i :: 0 <= i < |s.threads| ==> !Holds(s.threads[i])
    ensures x.Woken? && x in s.threads && !BlocksAgain(s.lock, x.how)
  {
    var c := multiset(s.threads);
    assert HoldsRead !in c && HoldsWrite !in c && HoldsShared !in c;
    x := SomeWork(s.threads);
    assert x in c;
    if x.Asleep? {
      assert 0 < Sleeping(c) by {
        match x.how case Read => case Write => case Shared => case Boosted =>
      }
      x := AwakeOne(c);
    }
    if 0 < c[Woken(Boosted)] {
      x := Woken(Boosted);
    }
  }

  /** Once nobody holds the lock, somebody is awake whose retry goes through. */
  lemma RetryWork(s: State) returns (t: nat)
    requires Inv(s) && 0 < Work(s.threads)
    requires forall i :: 0 <= i < |s.threads| ==> !Holds(s.threads[i])
    ensures t < |s.threads| && s.threads[t].Woken?
    ensures var u := Step(s, DoRetry(t)); |u.threads| == |s.threads| && Work(u.threads) < Work(s.threads)
  {
    var x := WokenOne(s);
    t :| 0 <= t < |s.threads| && s.threads[t] == x;
    WorkReplaced(s.threads, t, Holding(x.how));
  }

  lemma {:induction false} NoWork(ts: seq<Thread>)
    requires Work(ts) == 0
    ensures ts == Init(|ts|).threads
    decreases |ts|
  {
    if ts != [] {
      NoWork(ts[..|ts| - 1]);
      assert ts == ts[..|ts| - 1] + [Free];
    }
  }

  lemma AllReleased(s: State)
    requires Inv(s) && Work(s.threads) == 0
    ensures s == Init(|s.threads|)
  {
    NoWork(s.threads);
    AllFree(|s.threads|);
  }

  /** One release or successful retry. */
  lemma Advance(s: State) returns (l: Label)
    requires Inv(s) && 0 < Work(s.threads)
    ensures Enabled(s, l) && (l.DoRetry? || l.DoRelease?)
    ensures |Step(s, l).threads| == |s.threads| && Work(Step(s, l).threads) < Work(s.threads)
  {
    if t :| 0 <= t < |s.threads| && Holds(s.threads[t]) {
      l := DoRelease(t);
      if s.threads[t] == HoldsRead { ReleaseReadWork(s, t); } else { ReleaseExclusiveWork(s, t); }
    } else {
      var t := RetryWork(s);
      l := DoRetry(t);
    }
  }

  /** Nobody is stranded: releases and retries alone bring any reachable lock back to its initial state. */
  lemma {:induction false} Drains(s: State) returns (ls: seq<Label>)
    requires Inv(s)
    ensures Run(s, ls, Init(|s.threads|))
    ensures forall i :: 0 <= i < |ls| ==> ls[i].DoRetry? || ls[i].DoRelease?
    decreases Work(s.threads)
  {
    if Work(s.threads) == 0 {
      AllReleased(s);
      ls := [];
    } else {
      var l := Advance(s);
      StepInv(s, l);
      var rest := Drains(Step(s, l));
      ls := [l] + rest;
      assert ls[1..] == rest;
    }
  }

  /** So it is in every run of at most 256 threads. */
  lemma NobodyStranded(n: nat, ls: seq<Label>, s: State) returns (rest: seq<Label>)
    requires n <= 256 && Run(Init(n), ls, s)
    ensures Run(s, rest, Init(n))
    ensures forall i :: 0 <= i < |rest| ==> rest[i].DoRetry? || rest[i].DoRelease?
  {
    AllFree(n);
    RunInv(Init(n), ls, s);
    rest := Drains(s);
  }
}
